/**
 The edge-resume command receiver: a command is applied once, callers that arrive while it runs share its promise,
 and callers that arrive later are answered from the stored receipt. Every continuation after an `await` is an event
 of its own.
 */
module EdgeResume {

  const MAX_RECEIPTS: nat := 1024

  datatype Receipt = Receipt(account: string, resumedEdges: nat)

  datatype Settlement = Pending | Done(resumedEdges: nat) | Rejected

  /** The promise of one application, named by the call that owns it. */
  datatype Application = Application(command: string, account: string, state: Settlement)

  /** What the edge server answers when asked to resume. */
  datatype Reply = Unavailable | Throws | NotAnInteger | Resumed(count: int)

  datatype Outcome = Applied(receipt: Receipt) | Duplicate(receipt: Receipt) | Collision | Failed | CapacityError

  datatype Answer = Answer(call: nat, command: string, outcome: Outcome)

  /** `waiting` maps a suspended call to the application it awaits; an owner awaits its own. */
  datatype Receiver = Receiver(
    receipts: map<string, Receipt>,
    inFlight: map<string, nat>,
    applications: map<nat, Application>,
    waiting: map<nat, nat>,
    answers: seq<Answer>)

  const Empty := Receiver(map[], map[], map[], map[], [])

  datatype Event =
    | Call(call: nat, command: string, account: string)
    | ApplyRuns(owner: nat, reply: Reply)
    | Continues(call: nat)

  function Answered(r: Receiver, call: nat, command: string, o: Outcome): Receiver {
    r.(answers := r.answers + [Answer(call, command, o)])
  }

  predicate Used(r: Receiver, call: nat) {
    call in r.applications || call in r.waiting
  }

  function OnCall(r: Receiver, call: nat, command: string, account: string): Receiver {
    if command in r.receipts then
      Answered(r, call, command,
               if r.receipts[command].account == account then Duplicate(r.receipts[command]) else Collision)
    else if command in r.inFlight && r.inFlight[command] in r.applications then
      if r.applications[r.inFlight[command]].account != account then Answered(r, call, command, Collision)
      else r.(waiting := r.waiting[call := r.inFlight[command]])
    else if |r.receipts| + |r.inFlight| >= MAX_RECEIPTS then Answered(r, call, command, CapacityError)
    else
      r.(inFlight := r.inFlight[command := call],
         applications := r.applications[call := Application(command, account, Pending)],
         waiting := r.waiting[call := call])
  }

  function SettlementOf(reply: Reply): Settlement {
    if reply.Resumed? && reply.count >= 0 then Done(reply.count) else Rejected
  }

  function OnSettled(r: Receiver, call: nat): Receiver
    requires call in r.waiting && r.waiting[call] in r.applications
  {
    var owner := r.waiting[call];
    var app := r.applications[owner];
    var r := r.(waiting := r.waiting - {call});
    if call != owner then
      Answered(r, call, app.command,
               if app.state.Done? then Duplicate(Receipt(app.account, app.state.resumedEdges)) else Failed)
    else
      var released := if app.command in r.inFlight && r.inFlight[app.command] == owner
                      then r.inFlight - {app.command} else r.inFlight;
      if app.state.Done? then
        var receipt := Receipt(app.account, app.state.resumedEdges);
        Answered(r.(receipts := r.receipts[app.command := receipt], inFlight := released), call, app.command, Applied(receipt))
      else Answered(r.(inFlight := released), call, app.command, Failed)
  }

  function Step(r: Receiver, e: Event): Receiver {
    match e
    case Call(call, command, account) => if Used(r, call) then r else OnCall(r, call, command, account)
    case ApplyRuns(owner, reply) =>
      if owner !in r.applications || r.applications[owner].state != Pending then r
      else r.(applications := r.applications[owner := r.applications[owner].(state := SettlementOf(reply))])
    case Continues(call) =>
      if call !in r.waiting || r.waiting[call] !in r.applications || r.applications[r.waiting[call]].state == Pending then r
      else OnSettled(r, call)
  }

  function Run(es: seq<Event>): Receiver {
    if es == [] then Empty else Step(Run(es[..|es| - 1]), es[|es| - 1])
  }

  // ---------- the invariant ----------

  predicate Successful(o: Outcome) {
    o.Applied? || o.Duplicate?
  }

  /** The account and count that every successful answer about a command must carry. */
  predicate Agreed(r: Receiver, command: string, receipt: Receipt) {
    if command in r.receipts then r.receipts[command] == receipt
    else
      && command in r.inFlight
      && r.inFlight[command] in r.applications
      && r.applications[r.inFlight[command]].account == receipt.account
      && r.applications[r.inFlight[command]].state == Done(receipt.resumedEdges)
  }

  function AppliedTo(answers: seq<Answer>, command: string): nat {
    if answers == [] then 0
    else
      var last := answers[|answers| - 1];
      AppliedTo(answers[..|answers| - 1], command) + if last.command == command && last.outcome.Applied? then 1 else 0
  }

  ghost predicate InFlightOk(r: Receiver) {
    forall command :: command in r.inFlight ==>
      && command !in r.receipts
      && r.inFlight[command] in r.applications
      && r.applications[r.inFlight[command]].command == command
      && r.inFlight[command] in r.waiting
      && r.waiting[r.inFlight[command]] == r.inFlight[command]
  }

  /** An application that succeeded is what its command is bound to; one that its owner still awaits is in flight. */
  ghost predicate ApplicationsOk(r: Receiver) {
    forall owner :: owner in r.applications ==>
      && (r.applications[owner].state.Done? ==>
            Agreed(r, r.applications[owner].command, Receipt(r.applications[owner].account, r.applications[owner].state.resumedEdges)))
      && (owner in r.waiting && r.waiting[owner] == owner ==>
            r.applications[owner].command in r.inFlight && r.inFlight[r.applications[owner].command] == owner)
      && (r.applications[owner].state == Pending ==> owner in r.waiting && r.waiting[owner] == owner)
  }

  ghost predicate WaitingOk(r: Receiver) {
    forall call :: call in r.waiting ==>
      r.waiting[call] in r.applications && (call in r.applications ==> r.waiting[call] == call)
  }

  ghost predicate AnswersOk(r: Receiver) {
    && (forall k :: 0 <= k < |r.answers| && Successful(r.answers[k].outcome) ==>
          Agreed(r, r.answers[k].command, r.answers[k].outcome.receipt))
    && (forall command :: AppliedTo(r.answers, command) == if command in r.receipts then 1 else 0)
  }

  ghost predicate Inv(r: Receiver) {
    && InFlightOk(r)
    && ApplicationsOk(r)
    && WaitingOk(r)
    && AnswersOk(r)
    && |r.receipts| + |r.inFlight| <= MAX_RECEIPTS
  }

  lemma AppliedAppend(answers: seq<Answer>, a: Answer, command: string)
    ensures AppliedTo(answers + [a], command)
            == AppliedTo(answers, command) + if a.command == command && a.outcome.Applied? then 1 else 0
  {
    assert (answers + [a])[..|answers|] == answers;
  }

  /** An answer that applies nothing and agrees with what is known keeps the answers in order. */
  lemma AnswerKeepsOk(r: Receiver, call: nat, command: string, o: Outcome)
    requires AnswersOk(r) && !o.Applied? && (o.Duplicate? ==> Agreed(r, command, o.receipt))
    ensures AnswersOk(Answered(r, call, command, o))
  {
    hide AppliedTo;
    var a := Answer(call, command, o);
    forall c: string ensures AppliedTo(r.answers + [a], c) == AppliedTo(r.answers, c) {
      AppliedAppend(r.answers, a, c);
    }
    assert forall c, receipt :: Agreed(Answered(r, call, command, o), c, receipt) == Agreed(r, c, receipt);
  }

  lemma AnsweredKeepsInv(r: Receiver, call: nat, command: string, o: Outcome)
    requires Inv(r) && !o.Applied? && (o.Duplicate? ==> Agreed(r, command, o.receipt))
    ensures Inv(Answered(r, call, command, o))
  {
    AnswerKeepsOk(r, call, command, o);
    hide AnswersOk;
    assert forall c, receipt :: Agreed(Answered(r, call, command, o), c, receipt) == Agreed(r, c, receipt);
    hide Agreed;
  }

  /** Everything agreed in the one is agreed in the other. */
  ghost predicate Extends(r: Receiver, r': Receiver) {
    forall command, receipt :: Agreed(r, command, receipt) ==> Agreed(r', command, receipt)
  }

  lemma AnswersExtend(r: Receiver, r': Receiver)
    requires AnswersOk(r) && Extends(r, r') && r'.answers == r.answers && r'.receipts == r.receipts
    ensures AnswersOk(r')
  {
    hide Agreed, AppliedTo;
  }

  lemma Removed<V>(m: map<string, V>, key: string)
    requires key in m
    ensures |m - {key}| == |m| - 1
  {
    assert (m - {key})[key := m[key]] == m;
  }

  lemma StartKeepsInv(r: Receiver, call: nat, command: string, account: string)
    requires Inv(r) && !Used(r, call) && command !in r.receipts && command !in r.inFlight
    requires |r.receipts| + |r.inFlight| < MAX_RECEIPTS
    ensures Inv(OnCall(r, call, command, account))
  {
    hide AnswersOk, InFlightOk, ApplicationsOk, WaitingOk, Agreed, Used;
    var r' := OnCall(r, call, command, account);
    StartExtends(r, call, command, account);
    AnswersExtend(r, r');
    StartKeepsInFlight(r, call, command, account);
    StartKeepsApplications(r, call, command, account);
    StartKeepsWaiting(r, call, command, account);
    hide OnCall, Extends;
  }

  lemma StartKeepsWaiting(r: Receiver, call: nat, command: string, account: string)
    requires InFlightOk(r) && WaitingOk(r) && !Used(r, call) && command !in r.receipts && command !in r.inFlight
    requires |r.receipts| + |r.inFlight| < MAX_RECEIPTS
    ensures var r' := OnCall(r, call, command, account);
            WaitingOk(r') && |r'.receipts| + |r'.inFlight| <= MAX_RECEIPTS
            && r'.answers == r.answers && r'.receipts == r.receipts
  {
    hide Agreed;
  }

  lemma StartExtends(r: Receiver, call: nat, command: string, account: string)
    requires InFlightOk(r) && !Used(r, call) && command !in r.receipts && command !in r.inFlight
    requires |r.receipts| + |r.inFlight| < MAX_RECEIPTS
    ensures Extends(r, OnCall(r, call, command, account))
  {
  }

  lemma StartKeepsInFlight(r: Receiver, call: nat, command: string, account: string)
    requires InFlightOk(r) && !Used(r, call) && command !in r.receipts && command !in r.inFlight
    requires |r.receipts| + |r.inFlight| < MAX_RECEIPTS
    ensures InFlightOk(OnCall(r, call, command, account))
  {
  }

  lemma StartKeepsApplications(r: Receiver, call: nat, command: string, account: string)
    requires ApplicationsOk(r) && !Used(r, call) && command !in r.receipts && command !in r.inFlight
    requires |r.receipts| + |r.inFlight| < MAX_RECEIPTS
    requires Extends(r, OnCall(r, call, command, account))
    ensures ApplicationsOk(OnCall(r, call, command, account))
  {
    hide Agreed;
  }

  lemma JoinKeepsInv(r: Receiver, call: nat, owner: nat)
    requires Inv(r) && !Used(r, call) && owner in r.applications
    ensures Inv(r.(waiting := r.waiting[call := owner]))
  {
    hide AppliedTo;
    var r' := r.(waiting := r.waiting[call := owner]);
    assert forall c, receipt :: Agreed(r', c, receipt) == Agreed(r, c, receipt);
    hide Agreed;
  }

  lemma CallKeepsInv(r: Receiver, call: nat, command: string, account: string)
    requires Inv(r) && !Used(r, call)
    ensures Inv(OnCall(r, call, command, account))
  {
    if command in r.receipts {
      hide AnswersOk, ApplicationsOk, WaitingOk, InFlightOk;
      AnsweredKeepsInv(r, call, command,
                       if r.receipts[command].account == account then Duplicate(r.receipts[command]) else Collision);
    } else if command in r.inFlight {
      var owner := r.inFlight[command];
      if r.applications[owner].account != account {
        AnsweredKeepsInv(r, call, command, Collision);
      } else {
        JoinKeepsInv(r, call, owner);
      }
    } else if |r.receipts| + |r.inFlight| >= MAX_RECEIPTS {
      AnsweredKeepsInv(r, call, command, CapacityError);
    } else {
      StartKeepsInv(r, call, command, account);
    }
  }

  lemma ApplyKeepsInv(r: Receiver, owner: nat, reply: Reply)
    requires Inv(r) && owner in r.applications && r.applications[owner].state == Pending
    ensures Inv(Step(r, ApplyRuns(owner, reply)))
  {
    var r' := Step(r, ApplyRuns(owner, reply));
    ApplyExtends(r, owner, reply);
    AnswersExtend(r, r');
    ApplyKeepsApplications(r, owner, reply);
    hide AnswersOk, ApplicationsOk;
  }

  lemma ApplyExtends(r: Receiver, owner: nat, reply: Reply)
    requires owner in r.applications && r.applications[owner].state == Pending
    ensures Extends(r, Step(r, ApplyRuns(owner, reply)))
  {
  }

  lemma ApplyKeepsApplications(r: Receiver, owner: nat, reply: Reply)
    requires Inv(r) && owner in r.applications && r.applications[owner].state == Pending
    requires Extends(r, Step(r, ApplyRuns(owner, reply)))
    ensures ApplicationsOk(Step(r, ApplyRuns(owner, reply)))
  {
    hide AnswersOk;
    var r', app := Step(r, ApplyRuns(owner, reply)), r.applications[owner];
    assert app.command in r.inFlight && r.inFlight[app.command] == owner;
    if SettlementOf(reply).Done? {
      assert Agreed(r', app.command, Receipt(app.account, SettlementOf(reply).resumedEdges));
    }
    hide Agreed, InFlightOk, WaitingOk;
  }

  lemma JoinerKeepsInv(r: Receiver, call: nat)
    requires Inv(r) && call in r.waiting && r.waiting[call] in r.applications
    requires r.applications[r.waiting[call]].state != Pending && call != r.waiting[call]
    ensures Inv(OnSettled(r, call))
  {
    var r' := r.(waiting := r.waiting - {call});
    var app := r.applications[r.waiting[call]];
    JoinerLeaves(r, call);
    AnsweredKeepsInv(r', call, app.command,
                     if app.state.Done? then Duplicate(Receipt(app.account, app.state.resumedEdges)) else Failed);
  }

  lemma JoinerLeaves(r: Receiver, call: nat)
    requires Inv(r) && call in r.waiting && call != r.waiting[call]
    ensures Inv(r.(waiting := r.waiting - {call}))
  {
    hide AnswersOk, ApplicationsOk, WaitingOk, InFlightOk, Agreed;
    JoinerLeavesRest(r, call);
    AnswersExtend(r, r.(waiting := r.waiting - {call}));
    JoinerLeavesApplications(r, call);
    JoinerLeavesWaiting(r, call);
    hide Extends;
  }

  lemma JoinerLeavesRest(r: Receiver, call: nat)
    requires InFlightOk(r) && call in r.waiting && call != r.waiting[call]
    ensures var r' := r.(waiting := r.waiting - {call}); Extends(r, r') && InFlightOk(r')
  {
  }

  lemma JoinerLeavesWaiting(r: Receiver, call: nat)
    requires WaitingOk(r) && call in r.waiting
    ensures WaitingOk(r.(waiting := r.waiting - {call}))
  {
  }

  lemma JoinerLeavesApplications(r: Receiver, call: nat)
    requires ApplicationsOk(r) && call in r.waiting && call != r.waiting[call]
    requires Extends(r, r.(waiting := r.waiting - {call}))
    ensures ApplicationsOk(r.(waiting := r.waiting - {call}))
  {
    hide Agreed;
  }

  /** Only the answers of an invariant state depend on the answers. */
  lemma AnswersReplaced(r: Receiver, r': Receiver)
    requires InFlightOk(r) && ApplicationsOk(r) && WaitingOk(r) && |r.receipts| + |r.inFlight| <= MAX_RECEIPTS
    requires r' == r.(answers := r'.answers) && AnswersOk(r')
    ensures Inv(r')
  {
    assert Extends(r, r') by {
      hide AnswersOk, ApplicationsOk, WaitingOk, InFlightOk;
    }
    assert InFlightOk(r') && WaitingOk(r') by {
      hide AnswersOk, ApplicationsOk, Agreed;
    }
    assert ApplicationsOk(r') by {
      hide AnswersOk, InFlightOk, WaitingOk, Agreed;
    }
    hide AnswersOk, ApplicationsOk, InFlightOk, WaitingOk, Agreed;
  }

  /** The state once an application's owner has let go of it. */
  function Released(r: Receiver, call: nat): Receiver
    requires call in r.applications
  {
    var app := r.applications[call];
    var r := r.(waiting := r.waiting - {call}, inFlight := r.inFlight - {app.command});
    if app.state.Done? then r.(receipts := r.receipts[app.command := Receipt(app.account, app.state.resumedEdges)]) else r
  }

  predicate Owns(r: Receiver, call: nat) {
    && call in r.applications && call in r.waiting && r.waiting[call] == call
    && r.applications[call].state != Pending
  }

  lemma ReleaseExtends(r: Receiver, call: nat)
    requires InFlightOk(r) && ApplicationsOk(r) && Owns(r, call)
    ensures Extends(r, Released(r, call))
    ensures r.applications[call].state.Done? ==>
              Agreed(Released(r, call), r.applications[call].command,
                     Receipt(r.applications[call].account, r.applications[call].state.resumedEdges))
  {
  }

  lemma ReleaseKeepsInFlight(r: Receiver, call: nat)
    requires InFlightOk(r) && ApplicationsOk(r) && Owns(r, call)
    ensures InFlightOk(Released(r, call))
  {
    hide Agreed;
  }

  lemma ReleaseKeepsApplications(r: Receiver, call: nat)
    requires InFlightOk(r) && ApplicationsOk(r) && Owns(r, call) && Extends(r, Released(r, call))
    ensures ApplicationsOk(Released(r, call))
  {
    hide Agreed;
  }

  lemma ReleaseKeepsWaiting(r: Receiver, call: nat)
    requires WaitingOk(r) && Owns(r, call)
    ensures WaitingOk(Released(r, call))
  {
  }

  lemma ReleaseKeepsSize(r: Receiver, call: nat)
    requires Inv(r) && Owns(r, call)
    ensures |Released(r, call).receipts| + |Released(r, call).inFlight| <= |r.receipts| + |r.inFlight|
  {
    hide Agreed, AnswersOk, WaitingOk;
    Removed(r.inFlight, r.applications[call].command);
  }

  lemma ReleaseKeepsAnswers(r: Receiver, call: nat)
    requires Inv(r) && Owns(r, call) && Extends(r, Released(r, call))
    requires r.applications[call].state.Done? ==>
               Agreed(Released(r, call), r.applications[call].command,
                      Receipt(r.applications[call].account, r.applications[call].state.resumedEdges))
    ensures AnswersOk(OnSettled(r, call))
  {
    var app, r' := r.applications[call], Released(r, call);
    if app.state.Done? {
      SuccessKeepsAnswers(r, call);
    } else {
      OwnerInFlight(r, call);
      AnswersExtend(r, r');
      AnswerKeepsOk(r', call, app.command, Failed);
      hide Agreed, AnswersOk, ApplicationsOk, WaitingOk, InFlightOk;
    }
  }

  lemma OwnerInFlight(r: Receiver, call: nat)
    requires Inv(r) && Owns(r, call)
    ensures var command := r.applications[call].command;
            command in r.inFlight && command !in r.receipts && r.inFlight[command] == call
  {
    hide AnswersOk, Agreed;
  }

  lemma SuccessKeepsAnswers(r: Receiver, call: nat)
    requires Inv(r) && Owns(r, call) && Extends(r, Released(r, call)) && r.applications[call].state.Done?
    requires Agreed(Released(r, call), r.applications[call].command,
                    Receipt(r.applications[call].account, r.applications[call].state.resumedEdges))
    ensures AnswersOk(OnSettled(r, call))
  {
    hide AppliedTo, ApplicationsOk, WaitingOk, InFlightOk;
    OwnerInFlight(r, call);
    var app, r' := r.applications[call], Released(r, call);
    var o := Applied(Receipt(app.account, app.state.resumedEdges));
    forall c: string ensures AppliedTo(r.answers + [Answer(call, app.command, o)], c)
                             == AppliedTo(r.answers, c) + if c == app.command then 1 else 0 {
      AppliedAppend(r.answers, Answer(call, app.command, o), c);
    }
    AnsweredAgrees(r', call, app.command, o);
    hide Agreed;
  }

  lemma AnsweredAgrees(r: Receiver, call: nat, command: string, o: Outcome)
    ensures Extends(r, Answered(r, call, command, o))
  {
  }

  lemma OwnerKeepsInv(r: Receiver, call: nat)
    requires Inv(r) && Owns(r, call)
    ensures Inv(OnSettled(r, call))
  {
    var r' := Released(r, call);
    ReleaseExtends(r, call);
    ReleaseKeepsInFlight(r, call);
    ReleaseKeepsApplications(r, call);
    ReleaseKeepsWaiting(r, call);
    ReleaseKeepsSize(r, call);
    ReleaseKeepsAnswers(r, call);
    OwnerAnswers(r, call);
    hide Agreed, AnswersOk, ApplicationsOk, InFlightOk, WaitingOk, OnSettled, Released;
    AnswersReplaced(r', OnSettled(r, call));
  }

  lemma OwnerAnswers(r: Receiver, call: nat)
    requires InFlightOk(r) && ApplicationsOk(r) && Owns(r, call)
    ensures OnSettled(r, call) == Released(r, call).(answers := OnSettled(r, call).answers)
  {
    hide Agreed;
  }

  lemma StepKeepsInv(r: Receiver, e: Event)
    requires Inv(r)
    ensures Inv(Step(r, e))
  {
    match e
    case Call(call, command, account) =>
      if !Used(r, call) { CallKeepsInv(r, call, command, account); }
    case ApplyRuns(owner, reply) =>
      if owner in r.applications && r.applications[owner].state == Pending { ApplyKeepsInv(r, owner, reply); }
    case Continues(call) =>
      if call in r.waiting && r.waiting[call] in r.applications && r.applications[r.waiting[call]].state != Pending {
        if call != r.waiting[call] {
          JoinerKeepsInv(r, call);
        } else {
          OwnerKeepsInv(r, call);
        }
      }
  }

  lemma {:induction false} Reachable(es: seq<Event>)
    ensures Inv(Run(es))
  {
    if es != [] {
      Reachable(es[..|es| - 1]);
      hide Inv;
      StepKeepsInv(Run(es[..|es| - 1]), es[|es| - 1]);
    }
  }

  // ---------- the promises ----------

  lemma {:induction false} CountedOnce(answers: seq<Answer>, i: nat, j: nat)
    requires i < j < |answers| && answers[i].outcome.Applied? && answers[j].outcome.Applied?
    requires answers[i].command == answers[j].command
    ensures AppliedTo(answers, answers[i].command) >= 2
  {
    var init := answers[..|answers| - 1];
    if j < |answers| - 1 {
      CountedOnce(init, i, j);
    } else {
      CountedAtLeastOnce(init, i);
    }
  }

  lemma {:induction false} CountedAtLeastOnce(answers: seq<Answer>, i: nat)
    requires i < |answers| && answers[i].outcome.Applied?
    ensures AppliedTo(answers, answers[i].command) >= 1
  {
    if i < |answers| - 1 {
      CountedAtLeastOnce(answers[..|answers| - 1], i);
    }
  }

  /** At most one caller of a command is told that it was applied, however calls, replies and continuations interleave. */
  lemma AppliedToOneCaller(es: seq<Event>, i: nat, j: nat)
    requires i < j < |Run(es).answers|
    requires Run(es).answers[i].outcome.Applied? && Run(es).answers[j].outcome.Applied?
    ensures Run(es).answers[i].command != Run(es).answers[j].command
  {
    Reachable(es);
    hide AppliedTo, Run, Agreed;
    if Run(es).answers[i].command == Run(es).answers[j].command {
      CountedOnce(Run(es).answers, i, j);
    }
  }

  /** All callers that succeed with a command, first or duplicate, are told the same account and count. */
  lemma SuccessesAgree(es: seq<Event>, i: nat, j: nat)
    requires i < |Run(es).answers| && j < |Run(es).answers|
    requires Successful(Run(es).answers[i].outcome) && Successful(Run(es).answers[j].outcome)
    requires Run(es).answers[i].command == Run(es).answers[j].command
    ensures Run(es).answers[i].outcome.receipt == Run(es).answers[j].outcome.receipt
  {
    Reachable(es);
    hide Run, AppliedTo;
    var r := Run(es);
    assert Agreed(r, r.answers[i].command, r.answers[i].outcome.receipt);
    assert Agreed(r, r.answers[j].command, r.answers[j].outcome.receipt);
  }

  ghost predicate OneSuccess(r: Receiver) {
    forall p, q
      | p in r.applications && q in r.applications && r.applications[p].state.Done? && r.applications[q].state.Done?
      && r.applications[p].command == r.applications[q].command
      :: p == q
  }

  lemma ApplyKeepsOneSuccess(r: Receiver, owner: nat, reply: Reply)
    requires Inv(r) && OneSuccess(r) && owner in r.applications && r.applications[owner].state == Pending
    ensures OneSuccess(Step(r, ApplyRuns(owner, reply)))
  {
    hide AnswersOk, WaitingOk;
    var command := r.applications[owner].command;
    assert r.inFlight[command] == owner && command !in r.receipts;
    forall p | p in r.applications && r.applications[p].state.Done? ensures r.applications[p].command != command {
      assert Agreed(r, r.applications[p].command, Receipt(r.applications[p].account, r.applications[p].state.resumedEdges));
    }
    hide ApplicationsOk, InFlightOk, Agreed;
  }

  /** The edges are resumed at most once for a command: at most one application of it ever succeeds. */
  lemma {:induction false} ResumedOnce(es: seq<Event>)
    ensures OneSuccess(Run(es))
  {
    if es != [] {
      var r, e := Run(es[..|es| - 1]), es[|es| - 1];
      ResumedOnce(es[..|es| - 1]);
      Reachable(es[..|es| - 1]);
      if e.ApplyRuns? && e.owner in r.applications && r.applications[e.owner].state == Pending {
        hide Inv, OneSuccess;
        ApplyKeepsOneSuccess(r, e.owner, e.reply);
      } else {
        OtherKeepsOneSuccess(r, e);
      }
    }
  }

  lemma OtherKeepsOneSuccess(r: Receiver, e: Event)
    requires OneSuccess(r)
    requires e.ApplyRuns? ==> e.owner !in r.applications || r.applications[e.owner].state != Pending
    ensures OneSuccess(Step(r, e))
  {
  }

  lemma StepKeepsReceipts(r: Receiver, e: Event, command: string)
    requires Inv(r) && command in r.receipts
    ensures command in Step(r, e).receipts && Step(r, e).receipts[command] == r.receipts[command]
  {
    hide AnswersOk, WaitingOk, Agreed;
  }

  lemma {:induction false} RunJoins(es: seq<Event>, more: seq<Event>, command: string)
    requires command in Run(es).receipts
    ensures command in Run(es + more).receipts && Run(es + more).receipts[command] == Run(es).receipts[command]
  {
    hide Step;
    if more == [] {
      assert es + more == es;
    } else {
      RunJoins(es, more[..|more| - 1], command);
      assert (es + more)[..|es + more| - 1] == es + more[..|more| - 1];
      Reachable(es + more[..|more| - 1]);
      hide Inv;
      StepKeepsReceipts(Run(es + more[..|more| - 1]), more[|more| - 1], command);
    }
  }

  /**
   Once a command has its receipt, it keeps it for good: every later call of it, whatever happened in between, is
   answered at once, with the same receipt for the same account and with a collision for any other.
   */
  lemma BoundForGood(es: seq<Event>, more: seq<Event>, call: nat, command: string, account: string)
    requires command in Run(es).receipts && !Used(Run(es + more), call)
    ensures var r, receipt := Run(es + more), Run(es).receipts[command];
            Step(r, Call(call, command, account))
            == Answered(r, call, command, if account == receipt.account then Duplicate(receipt) else Collision)
  {
    RunJoins(es, more, command);
    hide Run;
  }

  /**
   While a command runs, a call for the same account waits for the application under way and starts none of its own; a
   call for another account collides.
   */
  lemma RunningCommandIsShared(es: seq<Event>, call: nat, command: string, account: string)
    requires command in Run(es).inFlight && !Used(Run(es), call)
    ensures var r := Run(es);
            && r.inFlight[command] in r.applications && r.applications[r.inFlight[command]].command == command
            && Step(r, Call(call, command, account))
               == if r.applications[r.inFlight[command]].account == account
                  then r.(waiting := r.waiting[call := r.inFlight[command]])
                  else r.(answers := r.answers + [Answer(call, command, Collision)])
  {
    Reachable(es);
    hide Run, AnswersOk, WaitingOk, Agreed;
  }

  /** A failed application leaves no trace of its command, so the command can be tried again. */
  lemma FailureLeavesNoReceipt(es: seq<Event>, call: nat, again: nat, account: string)
    requires Owns(Run(es), call) && Run(es).applications[call].state == Rejected
    requires !Used(Step(Run(es), Continues(call)), again)
    ensures var command := Run(es).applications[call].command;
            var r := Step(Run(es), Continues(call));
            && command !in r.receipts && command !in r.inFlight
            && r.answers[|r.answers| - 1] == Answer(call, command, Failed)
            && command in Step(r, Call(again, command, account)).inFlight
  {
    Reachable(es);
    var r := Run(es);
    hide Run, AnswersOk, WaitingOk, Agreed;
    assert r.applications[call].command in r.inFlight && r.inFlight[r.applications[call].command] == call;
    Removed(r.inFlight, r.applications[call].command);
  }

  /** Never more than 1024 commands are remembered or running; a call is refused exactly when its command is new and there is no room. */
  lemma CapacityHolds(es: seq<Event>, call: nat, command: string, account: string)
    requires !Used(Run(es), call)
    ensures |Run(es).receipts| + |Run(es).inFlight| <= 1024
    ensures Step(Run(es), Call(call, command, account)) == Answered(Run(es), call, command, CapacityError)
            <==> command !in Run(es).receipts && command !in Run(es).inFlight && |Run(es).receipts| + |Run(es).inFlight| == 1024
  {
    Reachable(es);
    var r := Run(es);
    hide Run, AnswersOk, WaitingOk, ApplicationsOk, Agreed;
    AnswersDiffer(r.answers, Answer(call, command, Collision), Answer(call, command, CapacityError));
    if command in r.receipts {
      AnswersDiffer(r.answers, Answer(call, command, Duplicate(r.receipts[command])), Answer(call, command, CapacityError));
    }
  }

  lemma AnswersDiffer(answers: seq<Answer>, a: Answer, b: Answer)
    requires a != b
    ensures answers + [a] != answers + [b]
  {
    assert (answers + [a])[|answers|] != (answers + [b])[|answers|];
  }

  /** No caller is left behind: what a suspended call awaits exists, and once that settles the call can be answered. */
  lemma WaitersAreAnswered(es: seq<Event>, call: nat)
    requires call in Run(es).waiting
    ensures var r := Run(es);
            && r.waiting[call] in r.applications
            && (r.applications[r.waiting[call]].state != Pending ==>
                  && call !in Step(r, Continues(call)).waiting
                  && |Step(r, Continues(call)).answers| == |r.answers| + 1)
  {
    Reachable(es);
    hide Run, AnswersOk, ApplicationsOk, InFlightOk;
  }

  // ---------- where an answer comes from ----------

  /** The edge server resumed, and said how many edges. */
  predicate Succeeds(reply: Reply) {
    reply.Resumed? && reply.count >= 0
  }

  /** An application was begun by its owner's call, and settled by the reply it received. */
  predicate Began(es: seq<Event>, i: nat, owner: nat, app: Application) {
    i < |es| && es[i] == Call(owner, app.command, app.account)
  }

  predicate SettledAt(es: seq<Event>, j: nat, owner: nat, app: Application) {
    && j < |es| && es[j].ApplyRuns? && es[j].owner == owner
    && app.state == if Succeeds(es[j].reply) then Done(es[j].reply.count) else Rejected
  }

  /** What one event can do to the application of an owner. */
  lemma ApplicationStep(r: Receiver, e: Event, owner: nat)
    requires owner in Step(r, e).applications
    ensures var app := Step(r, e).applications[owner];
            if owner in r.applications then
              && app.command == r.applications[owner].command && app.account == r.applications[owner].account
              && (app.state == r.applications[owner].state
                  || (r.applications[owner].state == Pending && e.ApplyRuns? && SettledAt([e], 0, owner, app)))
            else e == Call(owner, app.command, app.account) && app.state == Pending
  {
  }

  lemma ApplicationsStay(r: Receiver, e: Event, owner: nat)
    requires owner in r.applications
    ensures owner in Step(r, e).applications
    ensures r.applications[owner].state != Pending ==> Step(r, e).applications[owner] == r.applications[owner]
  {
  }

  lemma {:induction false} ApplicationOrigin(es: seq<Event>, owner: nat) returns (i: nat, j: nat)
    requires owner in Run(es).applications
    ensures Began(es, i, owner, Run(es).applications[owner])
    ensures Run(es).applications[owner].state != Pending ==> i < j && SettledAt(es, j, owner, Run(es).applications[owner])
  {
    var init, e := es[..|es| - 1], es[|es| - 1];
    ApplicationStep(Run(init), e, owner);
    hide Step;
    if owner in Run(init).applications {
      i, j := ApplicationOrigin(init, owner);
      if Run(es).applications[owner].state != Run(init).applications[owner].state {
        j := |es| - 1;
      }
    } else {
      i, j := |es| - 1, 0;
    }
  }

  /** The application that a receipt reports. */
  predicate Reports(r: Receiver, owner: nat, command: string, receipt: Receipt) {
    && owner in r.applications
    && r.applications[owner] == Application(command, receipt.account, Done(receipt.resumedEdges))
  }

  lemma ReportsStay(r: Receiver, e: Event, owner: nat, command: string, receipt: Receipt)
    requires Reports(r, owner, command, receipt)
    ensures Reports(Step(r, e), owner, command, receipt)
  {
    ApplicationsStay(r, e, owner);
  }

  /** What letting go of an application does to receipts and answers. */
  lemma SettledOutcome(r: Receiver, call: nat)
    requires call in r.waiting && r.waiting[call] in r.applications
    ensures var owner, app, r' := r.waiting[call], r.applications[r.waiting[call]], OnSettled(r, call);
            && |r'.answers| == |r.answers| + 1 && r.answers <= r'.answers
            && (if app.state.Done? && call == owner
                then r'.receipts == r.receipts[app.command := Receipt(app.account, app.state.resumedEdges)]
                else r'.receipts == r.receipts)
            && (Successful(r'.answers[|r.answers|].outcome) ==>
                  app.state.Done? && r'.answers[|r.answers|].command == app.command
                  && r'.answers[|r.answers|].outcome.receipt == Receipt(app.account, app.state.resumedEdges))
  {
  }

  lemma AnsweredOutcome(r: Receiver, call: nat, command: string, o: Outcome)
    ensures var r' := Answered(r, call, command, o);
            && r'.receipts == r.receipts && r.answers <= r'.answers && |r'.answers| == |r.answers| + 1
            && r'.answers[|r.answers|] == Answer(call, command, o)
  {
  }

  lemma CallOutcome(r: Receiver, call: nat, command: string, account: string)
    ensures var r' := OnCall(r, call, command, account);
            && r'.receipts == r.receipts && r.answers <= r'.answers && |r'.answers| <= |r.answers| + 1
            && (|r'.answers| > |r.answers| && Successful(r'.answers[|r.answers|].outcome) ==>
                  r'.answers[|r.answers|].command == command && command in r.receipts
                  && r.receipts[command] == r'.answers[|r.answers|].outcome.receipt)
  {
    hide Answered;
    AnsweredOutcome(r, call, command, Collision);
    AnsweredOutcome(r, call, command, CapacityError);
    if command in r.receipts { AnsweredOutcome(r, call, command, Duplicate(r.receipts[command])); }
  }

  /** A receipt that appears in a step reports an application that the step finds settled. */
  lemma ReceiptAppears(r: Receiver, e: Event, command: string)
    requires command in Step(r, e).receipts
    requires command in r.receipts ==> Step(r, e).receipts[command] != r.receipts[command]
    ensures e.Continues? && Reports(r, e.call, command, Step(r, e).receipts[command])
  {
    hide OnCall, OnSettled;
    match e
    case Call(call, c, account) => CallOutcome(r, call, c, account);
    case ApplyRuns(_, _) =>
    case Continues(call) =>
      if call in r.waiting && r.waiting[call] in r.applications { SettledOutcome(r, call); }
  }

  lemma {:induction false} ReceiptOrigin(es: seq<Event>, command: string) returns (owner: nat)
    requires command in Run(es).receipts
    ensures Reports(Run(es), owner, command, Run(es).receipts[command])
  {
    var init, e := es[..|es| - 1], es[|es| - 1];
    var r := Run(init);
    if command in r.receipts && Step(r, e).receipts[command] == r.receipts[command] {
      owner := ReceiptOrigin(init, command);
    } else {
      ReceiptAppears(r, e, command);
      owner := e.call;
    }
    hide Step;
    ReportsStay(r, e, owner, command, Run(es).receipts[command]);
  }

  /** A success that a step announces is read off a receipt or off a settled application. */
  lemma SuccessAppears(r: Receiver, e: Event)
    requires |Step(r, e).answers| > |r.answers| && Successful(Step(r, e).answers[|r.answers|].outcome)
    ensures var a := Step(r, e).answers[|r.answers|];
            || (a.command in r.receipts && r.receipts[a.command] == a.outcome.receipt)
            || exists owner :: Reports(r, owner, a.command, a.outcome.receipt)
  {
    hide OnCall, OnSettled;
    match e
    case Call(call, c, account) => CallOutcome(r, call, c, account);
    case ApplyRuns(_, _) =>
    case Continues(call) =>
      SettledOutcome(r, call);
      assert Reports(r, r.waiting[call], Step(r, e).answers[|r.answers|].command, Step(r, e).answers[|r.answers|].outcome.receipt);
  }

  lemma AnswersGrow(r: Receiver, e: Event)
    ensures r.answers <= Step(r, e).answers && |Step(r, e).answers| <= |r.answers| + 1
  {
    hide OnCall, OnSettled;
    match e
    case Call(call, c, account) => CallOutcome(r, call, c, account);
    case ApplyRuns(_, _) =>
    case Continues(call) =>
      if call in r.waiting && r.waiting[call] in r.applications { SettledOutcome(r, call); }
  }

  lemma {:induction false} SuccessOrigin(es: seq<Event>, k: nat) returns (owner: nat)
    requires k < |Run(es).answers| && Successful(Run(es).answers[k].outcome)
    ensures Reports(Run(es), owner, Run(es).answers[k].command, Run(es).answers[k].outcome.receipt)
  {
    hide Step, Reports;
    var init, e := es[..|es| - 1], es[|es| - 1];
    var r := Run(init);
    AnswersGrow(r, e);
    var a := Run(es).answers[k];
    if k < |r.answers| {
      owner := SuccessOrigin(init, k);
    } else {
      SuccessAppears(r, e);
      if a.command in r.receipts && r.receipts[a.command] == a.outcome.receipt {
        owner := ReceiptOrigin(init, a.command);
      } else {
        owner :| Reports(r, owner, a.command, a.outcome.receipt);
      }
    }
    ReportsStay(r, e, owner, a.command, a.outcome.receipt);
  }

  /**
   Over any run, every success, first or duplicate, goes back to a call of the same command and to the edge server's
   reply to it, and carries exactly that call's account and that reply's count.
   */
  lemma SuccessIsReported(es: seq<Event>, k: nat) returns (owner: nat, i: nat, j: nat)
    requires k < |Run(es).answers| && Successful(Run(es).answers[k].outcome)
    ensures var a := Run(es).answers[k];
            && i < j < |es|
            && es[i] == Call(owner, a.command, a.outcome.receipt.account)
            && es[j] == ApplyRuns(owner, Resumed(a.outcome.receipt.resumedEdges))
  {
    owner := SuccessOrigin(es, k);
    i, j := ApplicationOrigin(es, owner);
    hide Run;
  }

  lemma {:induction false} SettledStays(es: seq<Event>, more: seq<Event>, owner: nat)
    requires owner in Run(es).applications && Run(es).applications[owner].state != Pending
    ensures owner in Run(es + more).applications && Run(es + more).applications[owner] == Run(es).applications[owner]
  {
    hide Step;
    if more == [] {
      assert es + more == es;
    } else {
      SettledStays(es, more[..|more| - 1], owner);
      assert (es + more)[..|es + more| - 1] == es + more[..|more| - 1];
      ApplicationsStay(Run(es + more[..|more| - 1]), more[|more| - 1], owner);
    }
  }

  /**
   What a suspended call is told once the edge server has replied, however much later: a resumed count reaches the owner
   as applied, with its receipt stored, and every other caller as a duplicate; any other reply is a failure for all, and
   leaves neither a receipt nor a running entry.
   */
  lemma ReplyIsPassedOn(before: seq<Event>, owner: nat, reply: Reply, after: seq<Event>, call: nat)
    requires owner in Run(before).applications && Run(before).applications[owner].state == Pending
    requires var r := Run(before + [ApplyRuns(owner, reply)] + after); call in r.waiting && r.waiting[call] == owner
    ensures var app, r := Run(before).applications[owner], Run(before + [ApplyRuns(owner, reply)] + after);
            var r' := Step(r, Continues(call));
            var succeeded := reply.Resumed? && reply.count >= 0;
            && r'.answers == r.answers + [Answer(call, app.command,
                 if !succeeded then Failed
                 else if call == owner then Applied(Receipt(app.account, reply.count))
                 else Duplicate(Receipt(app.account, reply.count)))]
            && (call == owner ==>
                  && app.command !in r'.inFlight
                  && (app.command in r'.receipts <==> succeeded)
                  && (succeeded ==> r'.receipts[app.command] == Receipt(app.account, reply.count)))
            && (call != owner ==> r'.receipts == r.receipts && r'.inFlight == r.inFlight)
  {
    var es := before + [ApplyRuns(owner, reply)];
    assert es[..|before|] == before;
    SettledStays(es, after, owner);
    Reachable(es + after);
    SettledIs(Run(before), owner, reply);
    hide Run, AnswersOk, WaitingOk, Agreed;
  }

  lemma SettledIs(r: Receiver, owner: nat, reply: Reply)
    requires owner in r.applications && r.applications[owner].state == Pending
    ensures var r' := Step(r, ApplyRuns(owner, reply));
            && owner in r'.applications
            && r'.applications[owner] == r.applications[owner].(state :=
                 if reply.Resumed? && reply.count >= 0 then Done(reply.count) else Rejected)
  {
  }

  // ---------- the object ----------

  class CommandReceiver {
    var receipts: map<string, Receipt>
    var inFlight: map<string, nat>
    var applications: map<nat, Application>
    var waiting: map<nat, nat>
    ghost var answers: seq<Answer>

    ghost function View(): Receiver
      reads this
    {
      Receiver(receipts, inFlight, applications, waiting, answers)
    }

    constructor ()
      ensures View() == Empty && Inv(View())
    {
      receipts, inFlight, applications, waiting, answers := map[], map[], map[], map[], [];
      new;
      Reachable([]);
    }

    ghost method Settle(call: nat, command: string, o: Outcome)
      modifies this`answers
      ensures answers == old(answers) + [Answer(call, command, o)]
    {
      answers := answers + [Answer(call, command, o)];
    }

    /** The part of a call that runs at once; a call that is not answered is left waiting. */
    method ResumeEdgesForAccount(call: nat, command: string, account: string)
      requires Inv(View()) && !Used(View(), call)
      modifies this
      ensures View() == Step(old(View()), Call(call, command, account)) && Inv(View())
    {
      StepKeepsInv(View(), Call(call, command, account));
      assert command in inFlight ==> inFlight[command] in applications;
      hide Inv;
      if command in receipts {
        Settle(call, command, if receipts[command].account == account then Duplicate(receipts[command]) else Collision);
        return;
      }
      if command in inFlight {
        if applications[inFlight[command]].account != account {
          Settle(call, command, Collision);
          return;
        }
        waiting := waiting[call := inFlight[command]];
        return;
      }
      if |receipts| + |inFlight| >= MAX_RECEIPTS {
        Settle(call, command, CapacityError);
        return;
      }
      applications := applications[call := Application(command, account, Pending)];
      inFlight := inFlight[command := call];
      waiting := waiting[call := call];
    }

    method Apply(owner: nat, reply: Reply)
      requires Inv(View()) && owner in applications && applications[owner].state == Pending
      modifies this`applications
      ensures View() == Step(old(View()), ApplyRuns(owner, reply)) && Inv(View())
    {
      StepKeepsInv(View(), ApplyRuns(owner, reply));
      hide Inv;
      var state := Rejected;
      if reply.Resumed? && reply.count >= 0 {
        state := Done(reply.count);
      }
      applications := applications[owner := applications[owner].(state := state)];
    }

    method Continue(call: nat)
      requires Inv(View()) && call in waiting && waiting[call] in applications && applications[waiting[call]].state != Pending
      modifies this
      ensures View() == Step(old(View()), Continues(call)) && Inv(View())
    {
      StepKeepsInv(View(), Continues(call));
      hide Inv;
      var owner := waiting[call];
      if call == owner {
        ContinueOwner(call);
        return;
      }
      var app := applications[owner];
      waiting := waiting - {call};
      Settle(call, app.command,
             if app.state.Done? then Duplicate(Receipt(app.account, app.state.resumedEdges)) else Failed);
    }

    method ContinueOwner(call: nat)
      requires call in waiting && waiting[call] == call && call in applications && applications[call].state != Pending
      modifies this
      ensures View() == OnSettled(old(View()), call)
    {
      var app := applications[call];
      waiting := waiting - {call};
      if app.state.Done? {
        var receipt := Receipt(app.account, app.state.resumedEdges);
        receipts := receipts[app.command := receipt];
        Settle(call, app.command, Applied(receipt));
      } else {
        Settle(call, app.command, Failed);
      }
      if app.command in inFlight && inFlight[app.command] == call {
        inFlight := inFlight - {app.command};
      }
    }
  }
}
