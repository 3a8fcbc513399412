/**
 The model-usage merge buffer: calls are merged into rows, a window of rows is swapped out and submitted once, and
 every submitted row is accounted for. A flush only queues a submission; the submission and the sink's answer are
 later events.
 */
module UsageBuffer {
  import opened Wrappers
  import opened UsageKeys
  import Text

  // ---------- merging calls into rows ----------

  predicate HasRow(rows: seq<Row>, key: string) {
    exists i :: 0 <= i < |rows| && Key(rows[i].dims) == key
  }

  /** The window with one more call: its row is brought up to date, or a new row is put last. */
  function Merged(rows: seq<Row>, c: Call): seq<Row> {
    if !HasAccount(c) then rows else MergedInto(rows, DimsOf(c), UsageOf(c))
  }

  function MergedInto(rows: seq<Row>, d: Dims, u: Usage): seq<Row> {
    if rows == [] then [Row(d, u)]
    else if Key(rows[0].dims) == Key(d) then [rows[0].(usage := rows[0].usage.Plus(u))] + rows[1..]
    else [rows[0]] + MergedInto(rows[1..], d, u)
  }

  function Merge(calls: seq<Call>): seq<Row> {
    if calls == [] then [] else Merged(Merge(calls[..|calls| - 1]), calls[|calls| - 1])
  }

  /** The usage of the calls with one key, added up call by call. */
  function KeyUsage(calls: seq<Call>, key: string): Usage {
    if calls == [] then Nothing
    else
      var c := calls[|calls| - 1];
      var before := KeyUsage(calls[..|calls| - 1], key);
      if HasAccount(c) && Key(DimsOf(c)) == key then before.Plus(UsageOf(c)) else before
  }

  /** The usage of the calls with exactly these dimensions. */
  function DimsUsage(calls: seq<Call>, d: Dims): Usage {
    if calls == [] then Nothing
    else
      var c := calls[|calls| - 1];
      var before := DimsUsage(calls[..|calls| - 1], d);
      if HasAccount(c) && DimsOf(c) == d then before.Plus(UsageOf(c)) else before
  }

  function CallsUsage(calls: seq<Call>): Usage {
    if calls == [] then Nothing
    else
      var c := calls[|calls| - 1];
      var before := CallsUsage(calls[..|calls| - 1]);
      if HasAccount(c) then before.Plus(UsageOf(c)) else before
  }

  function RowsUsage(rows: seq<Row>): Usage {
    if rows == [] then Nothing else rows[0].usage.Plus(RowsUsage(rows[1..]))
  }

  predicate KeysDiffer(rows: seq<Row>) {
    forall i, j :: 0 <= i < j < |rows| ==> Key(rows[i].dims) != Key(rows[j].dims)
  }

  /** Merging changes the one row of that key, or adds it; nothing else moves. */
  lemma {:induction false} MergedIntoAt(rows: seq<Row>, d: Dims, u: Usage)
    requires KeysDiffer(rows)
    ensures var merged := MergedInto(rows, d, u);
            && |merged| == |rows| + (if HasRow(rows, Key(d)) then 0 else 1)
            && (forall i :: 0 <= i < |rows| ==>
                  merged[i] == (if Key(rows[i].dims) == Key(d) then Row(rows[i].dims, rows[i].usage.Plus(u)) else rows[i]))
            && (!HasRow(rows, Key(d)) ==> merged[|rows|] == Row(d, u))
  {
    hide Key;
    if rows != [] && Key(rows[0].dims) != Key(d) {
      MergedIntoAt(rows[1..], d, u);
      assert HasRow(rows[1..], Key(d)) <==> HasRow(rows, Key(d)) by {
        if HasRow(rows, Key(d)) {
          var i :| 0 <= i < |rows| && Key(rows[i].dims) == Key(d);
          assert rows[1..][i - 1] == rows[i];
        }
      }
    }
  }

  /** What a window says about the calls merged into it. */
  ghost predicate Faithful(rows: seq<Row>, calls: seq<Call>) {
    && KeysDiffer(rows)
    && (forall i :: 0 <= i < |rows| ==> rows[i].usage == KeyUsage(calls, Key(rows[i].dims)))
    && (forall key :: !HasRow(rows, key) ==> KeyUsage(calls, key) == Nothing)
  }

  lemma KeyUsageAppend(calls: seq<Call>, c: Call, key: string)
    ensures KeyUsage(calls + [c], key)
            == if HasAccount(c) && Key(DimsOf(c)) == key then KeyUsage(calls, key).Plus(UsageOf(c)) else KeyUsage(calls, key)
  {
    hide Key, DimsOf, UsageOf, HasAccount, Usage.Plus;
    assert (calls + [c])[..|calls|] == calls;
  }

  lemma MergedKeysDiffer(rows: seq<Row>, d: Dims, u: Usage)
    requires KeysDiffer(rows)
    ensures KeysDiffer(MergedInto(rows, d, u))
  {
    hide Key, MergedInto;
    MergedIntoAt(rows, d, u);
  }

  lemma MergedIsFaithful(rows: seq<Row>, calls: seq<Call>, c: Call)
    requires Faithful(rows, calls)
    ensures Faithful(Merged(rows, c), calls + [c])
  {
    hide Key, DimsOf, UsageOf, HasAccount, KeyUsage, MergedInto, HasRow, Usage.Plus;
    var d, u := DimsOf(c), UsageOf(c);
    var merged := Merged(rows, c);
    if HasAccount(c) {
      MergedIntoAt(rows, d, u);
      MergedKeysDiffer(rows, d, u);
      forall i | 0 <= i < |merged| ensures merged[i].usage == KeyUsage(calls + [c], Key(merged[i].dims)) {
        KeyUsageAppend(calls, c, Key(merged[i].dims));
        NothingPlus(u);
      }
    } else {
      forall i | 0 <= i < |merged| ensures merged[i].usage == KeyUsage(calls + [c], Key(merged[i].dims)) {
        KeyUsageAppend(calls, c, Key(merged[i].dims));
      }
    }
    forall key | !HasRow(merged, key) ensures KeyUsage(calls + [c], key) == Nothing {
      KeyUsageAppend(calls, c, key);
      MergedCoversKey(rows, d, u, key);
    }
  }

  lemma NothingPlus(u: Usage)
    ensures Nothing.Plus(u) == u
  {
  }

  lemma MergedCoversKey(rows: seq<Row>, d: Dims, u: Usage, key: string)
    requires KeysDiffer(rows)
    ensures HasRow(rows, key) || key == Key(d) ==> HasRow(MergedInto(rows, d, u), key)
  {
    hide Key;
    MergedIntoAt(rows, d, u);
    var merged := MergedInto(rows, d, u);
    if HasRow(rows, key) {
      var i :| 0 <= i < |rows| && Key(rows[i].dims) == key;
      assert Key(merged[i].dims) == key;
    } else if key == Key(d) {
      assert Key(merged[|rows|].dims) == key;
    }
  }

  lemma {:induction false} MergeIsFaithful(calls: seq<Call>)
    ensures Faithful(Merge(calls), calls)
  {
    if calls != [] {
      var before := calls[..|calls| - 1];
      MergeIsFaithful(before);
      MergedIsFaithful(Merge(before), before, calls[|calls| - 1]);
      assert before + [calls[|calls| - 1]] == calls;
    }
  }

  /** A key without a movable bar stands for one set of dimensions, whatever the other calls are. */
  lemma {:induction false} KeyUsageIsDimsUsage(calls: seq<Call>, d: Dims)
    requires Recordable(d) && !HasMovableBar(d)
    ensures KeyUsage(calls, Key(d)) == DimsUsage(calls, d)
  {
    hide Key, HasMovableBar, UsageOf, DimsOf, HasAccount, Recordable, Usage.Plus;
    if calls != [] {
      KeyUsageIsDimsUsage(calls[..|calls| - 1], d);
      var c := calls[|calls| - 1];
      if HasAccount(c) && Key(DimsOf(c)) == Key(d) {
        CallsAreRecordable(c);
        UnmovableIsExact(d, DimsOf(c));
      }
    }
  }

  lemma {:induction false} RowsComeFromCalls(calls: seq<Call>, i: nat)
    requires i < |Merge(calls)|
    ensures exists k :: 0 <= k < |calls| && HasAccount(calls[k]) && DimsOf(calls[k]) == Merge(calls)[i].dims
  {
    hide Key, UsageOf, DimsOf;
    if calls != [] {
      var before, c := calls[..|calls| - 1], calls[|calls| - 1];
      MergeIsFaithful(before);
      if HasAccount(c) {
        MergedIntoAt(Merge(before), DimsOf(c), UsageOf(c));
      }
      if i < |Merge(before)| {
        RowsComeFromCalls(before, i);
        var k :| 0 <= k < |before| && HasAccount(before[k]) && DimsOf(before[k]) == Merge(before)[i].dims;
        assert calls[k] == before[k];
      } else {
        assert HasAccount(calls[|calls| - 1]);
      }
    }
  }

  /** A merged row whose dimensions hold no movable bar is exactly the sum of the calls with its five dimensions. */
  lemma MergeIsExact(calls: seq<Call>, i: nat)
    requires i < |Merge(calls)| && !HasMovableBar(Merge(calls)[i].dims)
    ensures Merge(calls)[i].usage == DimsUsage(calls, Merge(calls)[i].dims)
    ensures forall j :: 0 <= j < |Merge(calls)| && j != i ==> Merge(calls)[j].dims != Merge(calls)[i].dims
  {
    hide Key, HasMovableBar, UsageOf, DimsOf, Merge, HasAccount, KeyUsage, DimsUsage, Recordable;
    MergeIsFaithful(calls);
    RowsComeFromCalls(calls, i);
    var k :| 0 <= k < |calls| && HasAccount(calls[k]) && DimsOf(calls[k]) == Merge(calls)[i].dims;
    CallsAreRecordable(calls[k]);
    KeyUsageIsDimsUsage(calls, Merge(calls)[i].dims);
  }

  function CallFrom(account: string, role: string): Call {
    Call(0, Some(account), Some(role), Some("p"), "m", true, Missing, Missing, Finite(7.5))
  }

  lemma CallFromDims(account: string, role: string)
    requires Text.IsTrimmed(account) && Text.IsTrimmed(role) && account != "" && role != ""
    ensures HasAccount(CallFrom(account, role)) && DimsOf(CallFrom(account, role)) == Dims(0, account, role, "p", "m")
    ensures UsageOf(CallFrom(account, role)) == Usage(0, 0, 7, 1, 1)
  {
    hide Text.Trim;
    Text.TrimIsTrimmed(account);
    Text.TrimIsTrimmed(role);
    Text.TrimIsTrimmed("p");
    Text.TrimIsTrimmed("m");
  }

  /** With bars it is not: the calls of two accounts are merged into one row and billed to the first. */
  lemma BarsMergeStrangers()
    ensures Merge([CallFrom("a|b", "c"), CallFrom("a", "b|c")]) == [Row(Dims(0, "a|b", "c", "p", "m"), Usage(0, 0, 14, 2, 2))]
  {
    hide UsageOf, HasAccount, DimsOf, CallFrom, Key, Merge;
    var c, d := CallFrom("a|b", "c"), CallFrom("a", "b|c");
    CallFromDims("a|b", "c");
    CallFromDims("a", "b|c");
    StrangersShareAKey();
    MergeOfTwo(c, d);
  }

  lemma StrangersShareAKey()
    ensures Key(Dims(0, "a|b", "c", "p", "m")) == Key(Dims(0, "a", "b|c", "p", "m"))
  {
    hide Text.Decimal;
    KeyText(Dims(0, "a|b", "c", "p", "m"));
    KeyText(Dims(0, "a", "b|c", "p", "m"));
    assert Barred("a|b", Barred("c", Barred("p", "m"))) == Barred("a", Barred("b|c", Barred("p", "m")));
  }

  lemma MergeOfTwo(c: Call, d: Call)
    requires HasAccount(c) && HasAccount(d) && Key(DimsOf(c)) == Key(DimsOf(d))
    ensures Merge([c, d]) == [Row(DimsOf(c), UsageOf(c).Plus(UsageOf(d)))]
  {
    hide UsageOf, HasAccount, DimsOf, Key;
    assert [c, d][..1] == [c] && [c][..0] == [];
    assert Merge([c]) == [Row(DimsOf(c), UsageOf(c))];
  }

  lemma {:induction false} MergedIntoAddsUp(rows: seq<Row>, d: Dims, u: Usage)
    ensures RowsUsage(MergedInto(rows, d, u)) == RowsUsage(rows).Plus(u)
  {
    hide Key;
    if rows != [] {
      MergedIntoAddsUp(rows[1..], d, u);
    }
  }

  // ---------- the buffer ----------

  datatype Stats = Stats(droppedNoAccount: nat, discardedRows: nat, unappliedRows: nat, appliedRows: nat)

  /** The sink's answer to a submission. */
  datatype Answer = Rejected | Landed(applied: Quantity)

  /** How far a queued submission has come; its rows are handed over when it starts. */
  datatype Progress = Waiting | Running(rows: seq<Row>) | Ended

  /** One call of `flush`: its submission starts once the promise it was chained to, if any, has settled. */
  datatype Ticket = Ticket(after: Option<nat>, progress: Progress)

  /** `batches` are the submissions handed to the sink so far; `flushing` is the promise of the latest flush. */
  datatype Buffer = Buffer(
    window: seq<Row>,
    batches: seq<seq<Row>>,
    tickets: seq<Ticket>,
    flushing: Option<nat>,
    timerArmed: bool,
    stats: Stats)

  const Fresh := Buffer([], [], [], None, false, Stats(0, 0, 0, 0))

  datatype Event =
    | Record(call: Call)
    | StartTimer
    | TimerFires
    | FlushCalled
    | StopCalled
      /** The continuation of a flush runs. */
    | SubmitBegins(ticket: nat)
    | SinkAnswers(ticket: nat, answer: Answer)

  function LandedRows(q: Quantity): int {
    if q.Finite? && q.value > 0.0 then q.value.Floor else 0
  }

  function Settled(stats: Stats, rows: nat, a: Answer): Stats {
    match a
    case Rejected => stats.(discardedRows := stats.discardedRows + rows)
    case Landed(q) =>
      var landed := LandedRows(q);
      if landed < rows
      then stats.(appliedRows := stats.appliedRows + landed, unappliedRows := stats.unappliedRows + (rows - landed))
      else stats.(appliedRows := stats.appliedRows + rows)
  }

  /** Chains a submission to the latest promise and makes its own promise the latest. */
  function Chained(b: Buffer): Buffer {
    b.(tickets := b.tickets + [Ticket(b.flushing, Waiting)], flushing := Some(|b.tickets|))
  }

  predicate MayBegin(tickets: seq<Ticket>, t: nat) {
    && t < |tickets| && tickets[t].progress == Waiting
    && (tickets[t].after.Some? ==>
          tickets[t].after.value < |tickets| && tickets[tickets[t].after.value].progress == Ended)
  }

  function Moved(b: Buffer, t: nat, p: Progress): Buffer
    requires t < |b.tickets|
  {
    b.(tickets := b.tickets[t := b.tickets[t].(progress := p)])
  }

  function Step(b: Buffer, e: Event): Buffer {
    match e
    case Record(c) =>
      if HasAccount(c) then b.(window := Merged(b.window, c))
      else b.(stats := b.stats.(droppedNoAccount := b.stats.droppedNoAccount + 1))
    case StartTimer => b.(timerArmed := true)
    case TimerFires => if b.timerArmed then Chained(b) else b
    case FlushCalled => Chained(b)
    case StopCalled => Chained(b.(timerArmed := false))
    case SubmitBegins(t) =>
      if !MayBegin(b.tickets, t) then b
      else if b.window == [] then Moved(b, t, Ended)
      else Moved(b, t, Running(b.window)).(window := [], batches := b.batches + [b.window])
    case SinkAnswers(t, a) =>
      if t >= |b.tickets| || !b.tickets[t].progress.Running? then b
      else Moved(b, t, Ended).(stats := Settled(b.stats, |b.tickets[t].progress.rows|, a))
  }

  function Run(es: seq<Event>): Buffer {
    if es == [] then Fresh else Step(Run(es[..|es| - 1]), es[|es| - 1])
  }

  function Recorded(es: seq<Event>): seq<Call> {
    if es == [] then []
    else
      var last := es[|es| - 1];
      Recorded(es[..|es| - 1]) + if last.Record? then [last.call] else []
  }

  function BatchesUsage(batches: seq<seq<Row>>): Usage {
    if batches == [] then Nothing
    else BatchesUsage(batches[..|batches| - 1]).Plus(RowsUsage(batches[|batches| - 1]))
  }

  function BatchesRows(batches: seq<seq<Row>>): nat {
    if batches == [] then 0 else BatchesRows(batches[..|batches| - 1]) + |batches[|batches| - 1]|
  }

  /** The rows handed over by every submission that is still running. */
  function Unanswered(tickets: seq<Ticket>): seq<Row> {
    if tickets == [] then []
    else
      var last := tickets[|tickets| - 1].progress;
      Unanswered(tickets[..|tickets| - 1]) + if last.Running? then last.rows else []
  }

  lemma RecordedStep(es: seq<Event>)
    requires es != []
    ensures var before, e := Recorded(es[..|es| - 1]), es[|es| - 1];
            if e.Record? then Recorded(es) == before + [e.call] && Recorded(es)[..|before|] == before
            else Recorded(es) == before
  {
  }

  lemma {:induction false} FlattenedUsage(batches: seq<seq<Row>>, rows: seq<Row>)
    ensures BatchesUsage(batches + [rows]) == BatchesUsage(batches).Plus(RowsUsage(rows))
    ensures BatchesRows(batches + [rows]) == BatchesRows(batches) + |rows|
  {
    assert (batches + [rows])[..|batches|] == batches;
  }

  /** The usage an event records. */
  function Gain(e: Event): Usage {
    if e.Record? && HasAccount(e.call) then UsageOf(e.call) else Nothing
  }

  function HeldUsage(b: Buffer): Usage {
    BatchesUsage(b.batches).Plus(RowsUsage(b.window))
  }

  lemma RecordedUsage(es: seq<Event>)
    requires es != []
    ensures CallsUsage(Recorded(es)) == CallsUsage(Recorded(es[..|es| - 1])).Plus(Gain(es[|es| - 1]))
  {
    hide HasAccount, UsageOf, Recorded, Usage.Plus;
    RecordedStep(es);
    if es[|es| - 1].Record? {
      CallsUsageAppend(Recorded(es[..|es| - 1]), es[|es| - 1].call);
    }
    PlusNothing(CallsUsage(Recorded(es[..|es| - 1])));
  }

  lemma CallsUsageAppend(calls: seq<Call>, c: Call)
    ensures CallsUsage(calls + [c]) == if HasAccount(c) then CallsUsage(calls).Plus(UsageOf(c)) else CallsUsage(calls)
  {
    hide HasAccount, UsageOf, Usage.Plus;
    assert (calls + [c])[..|calls|] == calls;
  }

  lemma PlusNothing(u: Usage)
    ensures u.Plus(Nothing) == u
  {
  }

  /** One event moves usage between the window and the batches and adds what it records. */
  lemma StepConserves(b: Buffer, e: Event)
    ensures HeldUsage(Step(b, e)) == HeldUsage(b).Plus(Gain(e))
  {
    hide HasAccount, UsageOf, Merged, BatchesUsage;
    if e.Record? {
      MergedAddsUp(b.window, e.call);
    } else if e.SubmitBegins? {
      FlattenedUsage(b.batches, b.window);
    }
  }

  /** Every recorded call and token is in the live window or in a row handed to the sink, exactly once. */
  lemma {:induction false} UsageIsConserved(es: seq<Event>)
    ensures CallsUsage(Recorded(es)) == HeldUsage(Run(es))
  {
    hide CallsUsage, HeldUsage, Gain, Step, Recorded;
    if es != [] {
      UsageIsConserved(es[..|es| - 1]);
      RecordedUsage(es);
      StepConserves(Run(es[..|es| - 1]), es[|es| - 1]);
    } else {
      EmptyRun(es);
    }
  }

  lemma NoUsage(calls: seq<Call>, batches: seq<seq<Row>>, rows: seq<Row>)
    ensures calls == [] ==> CallsUsage(calls) == Nothing && Orphans(calls) == 0
    ensures batches == [] ==> BatchesUsage(batches) == Nothing && BatchesRows(batches) == 0
    ensures rows == [] ==> RowsUsage(rows) == Nothing
  {
  }

  lemma EmptyRun(es: seq<Event>)
    requires es == []
    ensures Recorded(es) == [] && CallsUsage(Recorded(es)) == Nothing && HeldUsage(Run(es)) == Nothing
  {
    hide CallsUsage, BatchesUsage, RowsUsage, Step;
    NoUsage(Recorded(es), Run(es).batches, Run(es).window);
  }

  /** The whole tokens and calls of a history, added up field by field from the records themselves. */
  function Total(calls: seq<Call>, field: Call -> nat): nat {
    if calls == [] then 0
    else Total(calls[..|calls| - 1], field) + if HasAccount(calls[|calls| - 1]) then field(calls[|calls| - 1]) else 0
  }

  /** The usage of a history with each of its five fields added up on its own. */
  function FieldTotals(calls: seq<Call>): Usage {
    Usage(Total(calls, (c: Call) => NonNegative(c.promptTokens)),
          Total(calls, (c: Call) => NonNegative(c.completionTokens)),
          Total(calls, (c: Call) => NonNegative(c.totalTokens)),
          Total(calls, (c: Call) => 1),
          Total(calls, (c: Call) => if c.ok then 1 else 0))
  }

  lemma {:induction false} UsageByField(calls: seq<Call>)
    ensures CallsUsage(calls) == FieldTotals(calls)
  {
    hide HasAccount, NonNegative;
    if calls != [] {
      UsageByField(calls[..|calls| - 1]);
    }
  }

  /** Prompt, completion and total tokens, calls and successful calls are each conserved over any run. */
  lemma TokensAreConserved(es: seq<Event>)
    ensures HeldUsage(Run(es)) == FieldTotals(Recorded(es))
  {
    hide HeldUsage, FieldTotals, CallsUsage, Recorded, Run;
    UsageIsConserved(es);
    UsageByField(Recorded(es));
  }

  lemma MergedAddsUp(rows: seq<Row>, c: Call)
    ensures RowsUsage(Merged(rows, c)) == if HasAccount(c) then RowsUsage(rows).Plus(UsageOf(c)) else RowsUsage(rows)
  {
    hide HasAccount, UsageOf, DimsOf;
    if HasAccount(c) {
      MergedIntoAddsUp(rows, DimsOf(c), UsageOf(c));
    }
  }

  // ---------- submissions take turns ----------

  /** Each flush was chained to the one before it. */
  predicate InChain(b: Buffer) {
    && b.flushing == (if b.tickets == [] then None else Some(|b.tickets| - 1))
    && forall t :: 0 <= t < |b.tickets| ==> b.tickets[t].after == if t == 0 then None else Some(t - 1)
  }

  /** A submission has started only if all earlier ones have ended. */
  predicate InOrder(tickets: seq<Ticket>) {
    forall s, t :: 0 <= s < t < |tickets| && tickets[t].progress != Waiting ==> tickets[s].progress == Ended
  }

  lemma StepKeepsChain(b: Buffer, e: Event)
    requires InChain(b)
    ensures InChain(Step(b, e))
  {
    hide HasAccount, Merged, Settled;
  }

  /** A submission whose predecessor has ended finds all earlier ones ended, and none running. */
  lemma BeginnerIsAlone(b: Buffer, t: nat)
    requires InChain(b) && InOrder(b.tickets) && MayBegin(b.tickets, t)
    ensures forall s :: 0 <= s < |b.tickets| ==> b.tickets[s].progress == if s < t then Ended else Waiting
  {
    forall s | 0 <= s < t ensures b.tickets[s].progress == Ended {
      assert b.tickets[t].after == Some(t - 1) && b.tickets[t - 1].progress == Ended;
    }
    forall s | t <= s < |b.tickets| ensures b.tickets[s].progress == Waiting {
    }
  }

  lemma StepKeepsOrder(b: Buffer, e: Event)
    requires InChain(b) && InOrder(b.tickets)
    ensures InOrder(Step(b, e).tickets)
  {
    hide HasAccount, Merged, Settled;
    if e.SubmitBegins? && MayBegin(b.tickets, e.ticket) {
      BeginnerIsAlone(b, e.ticket);
    }
  }

  lemma {:induction false} TurnsAreTaken(es: seq<Event>)
    ensures InChain(Run(es)) && InOrder(Run(es).tickets)
  {
    if es != [] {
      TurnsAreTaken(es[..|es| - 1]);
      hide Step, InChain, InOrder;
      StepKeepsChain(Run(es[..|es| - 1]), es[|es| - 1]);
      StepKeepsOrder(Run(es[..|es| - 1]), es[|es| - 1]);
    }
  }

  /** Over any run, submissions start in the order of their flushes, each after the ones before it have ended: at most one is running. */
  lemma SubmissionsTakeTurns(es: seq<Event>, s: nat, t: nat)
    requires s < t < |Run(es).tickets| && Run(es).tickets[t].progress != Waiting
    ensures Run(es).tickets[s].progress == Ended
  {
    hide Run;
    TurnsAreTaken(es);
  }

  /** While a submission waits, one at or before it is running or may start: the queue never sticks. */
  lemma {:induction false} QueueNeverSticks(es: seq<Event>, t: nat) returns (s: nat)
    requires t < |Run(es).tickets| && Run(es).tickets[t].progress == Waiting
    ensures s <= t && (MayBegin(Run(es).tickets, s) || Run(es).tickets[s].progress.Running?)
    decreases t
  {
    TurnsAreTaken(es);
    hide Run;
    s := t;
    if t > 0 && Run(es).tickets[t - 1].progress.Running? {
      s := t - 1;
    } else if t > 0 && Run(es).tickets[t - 1].progress == Waiting {
      s := QueueNeverSticks(es, t - 1);
    }
  }

  lemma {:induction false} NoneUnanswered(tickets: seq<Ticket>)
    requires forall t :: 0 <= t < |tickets| ==> !tickets[t].progress.Running?
    ensures Unanswered(tickets) == []
  {
    if tickets != [] {
      NoneUnanswered(tickets[..|tickets| - 1]);
    }
  }

  lemma {:induction false} OneUnanswered(tickets: seq<Ticket>, t: nat)
    requires t < |tickets| && tickets[t].progress.Running?
    requires forall s :: 0 <= s < |tickets| && s != t ==> !tickets[s].progress.Running?
    ensures Unanswered(tickets) == tickets[t].progress.rows
  {
    if t < |tickets| - 1 {
      OneUnanswered(tickets[..|tickets| - 1], t);
    } else {
      NoneUnanswered(tickets[..|tickets| - 1]);
    }
  }

  lemma UnansweredAppend(tickets: seq<Ticket>, k: Ticket)
    requires k.progress == Waiting
    ensures Unanswered(tickets + [k]) == Unanswered(tickets)
  {
    assert (tickets + [k])[..|tickets|] == tickets;
  }

  /** What one event does to the rows still unanswered. */
  lemma UnansweredStep(b: Buffer, e: Event)
    requires InChain(b) && InOrder(b.tickets)
    ensures var rows, b' := Unanswered(b.tickets), Step(b, e);
            Unanswered(b'.tickets) ==
              if e.SubmitBegins? && MayBegin(b.tickets, e.ticket) then b.window
              else if e.SinkAnswers? && b' != b then []
              else rows
    ensures e.SubmitBegins? && MayBegin(b.tickets, e.ticket) ==> Unanswered(b.tickets) == []
    ensures e.SinkAnswers? && e.ticket < |b.tickets| && b.tickets[e.ticket].progress.Running? ==>
              Unanswered(b.tickets) == b.tickets[e.ticket].progress.rows
  {
    hide HasAccount, Merged, Settled, Unanswered, MayBegin, InChain, InOrder;
    var b' := Step(b, e);
    if e.SubmitBegins? {
      if MayBegin(b.tickets, e.ticket) { BeginLeavesOne(b, e.ticket); }
    } else if e.SinkAnswers? {
      if e.ticket < |b.tickets| && b.tickets[e.ticket].progress.Running? { AnswerLeavesNone(b, e.ticket, e.answer); }
    } else {
      UnansweredAppend(b.tickets, Ticket(b.flushing, Waiting));
    }
  }

  lemma BeginLeavesOne(b: Buffer, t: nat)
    requires InChain(b) && InOrder(b.tickets) && MayBegin(b.tickets, t)
    ensures Unanswered(b.tickets) == [] && Unanswered(Step(b, SubmitBegins(t)).tickets) == b.window
  {
    hide Unanswered;
    BeginnerIsAlone(b, t);
    NoneUnanswered(b.tickets);
    var tickets := Step(b, SubmitBegins(t)).tickets;
    if b.window == [] {
      NoneUnanswered(tickets);
    } else {
      OneUnanswered(tickets, t);
    }
  }

  lemma AnswerLeavesNone(b: Buffer, t: nat, a: Answer)
    requires InOrder(b.tickets) && t < |b.tickets| && b.tickets[t].progress.Running?
    ensures Unanswered(b.tickets) == b.tickets[t].progress.rows && Unanswered(Step(b, SinkAnswers(t, a)).tickets) == []
    ensures Step(b, SinkAnswers(t, a)) != b
  {
    hide Unanswered, Settled;
    OneUnanswered(b.tickets, t);
    NoneUnanswered(Step(b, SinkAnswers(t, a)).tickets);
    assert Step(b, SinkAnswers(t, a)).tickets[t].progress != b.tickets[t].progress;
  }

  /** An answer is booked for all rows of its submission: as discarded, or as applied up to the number reported. */
  lemma AnswerIsBooked(b: Buffer, t: nat, answer: Answer)
    requires t < |b.tickets| && b.tickets[t].progress.Running?
    ensures var rows, was, now := |b.tickets[t].progress.rows|, b.stats, Step(b, SinkAnswers(t, answer)).stats;
            && now.discardedRows == was.discardedRows + (if answer.Rejected? then rows else 0)
            && (answer.Rejected? ==> now.appliedRows == was.appliedRows && now.unappliedRows == was.unappliedRows)
            && (answer.Landed? ==>
                  && now.appliedRows + now.unappliedRows == was.appliedRows + was.unappliedRows + rows
                  && (now.unappliedRows == was.unappliedRows <==>
                        rows == 0 || (answer.applied.Finite? && answer.applied.value >= rows as real))
                  && (!answer.applied.Finite? || answer.applied.value < 0.0 ==> now.appliedRows == was.appliedRows)
                  && (answer.applied.Finite? && 0.0 <= answer.applied.value < rows as real ==>
                        (now.appliedRows - was.appliedRows) as real <= answer.applied.value
                        < (now.appliedRows - was.appliedRows) as real + 1.0))
  {
  }

  ghost predicate RowsBalance(b: Buffer) {
    b.stats.appliedRows + b.stats.unappliedRows + b.stats.discardedRows + |Unanswered(b.tickets)| == BatchesRows(b.batches)
  }

  lemma FreshBalances(es: seq<Event>)
    requires es == []
    ensures RowsBalance(Run(es))
  {
  }

  lemma BeginKeepsRowsBalance(b: Buffer, t: nat)
    requires RowsBalance(b) && InChain(b) && InOrder(b.tickets) && MayBegin(b.tickets, t)
    ensures RowsBalance(Step(b, SubmitBegins(t)))
  {
    hide BatchesRows, Unanswered, MayBegin, InChain, InOrder, BatchesUsage, RowsUsage, Usage.Plus;
    BeginLeavesOne(b, t);
    FlattenedUsage(b.batches, b.window);
    BatchesAfterBegin(b, t);
  }

  lemma BatchesAfterBegin(b: Buffer, t: nat)
    requires MayBegin(b.tickets, t)
    ensures var b' := Step(b, SubmitBegins(t));
            b'.stats == b.stats && b'.batches == if b.window == [] then b.batches else b.batches + [b.window]
  {
  }

  lemma AnswerKeepsRowsBalance(b: Buffer, t: nat, a: Answer)
    requires RowsBalance(b) && InOrder(b.tickets) && t < |b.tickets| && b.tickets[t].progress.Running?
    ensures RowsBalance(Step(b, SinkAnswers(t, a)))
  {
    AnswerLeavesNone(b, t, a);
    hide LandedRows, BatchesRows, Unanswered, InOrder;
  }

  lemma StepKeepsRowsBalance(b: Buffer, e: Event)
    requires RowsBalance(b) && InChain(b) && InOrder(b.tickets)
    ensures RowsBalance(Step(b, e))
  {
    if e.SubmitBegins? {
      if MayBegin(b.tickets, e.ticket) { BeginKeepsRowsBalance(b, e.ticket); }
      hide Unanswered, BatchesRows, InChain, InOrder;
    } else if e.SinkAnswers? {
      if e.ticket < |b.tickets| && b.tickets[e.ticket].progress.Running? { AnswerKeepsRowsBalance(b, e.ticket, e.answer); }
      hide Unanswered, BatchesRows, InChain, InOrder;
    } else {
      UnansweredAppend(b.tickets, Ticket(b.flushing, Waiting));
      hide HasAccount, Merged, Unanswered, BatchesRows, InChain, InOrder;
    }
  }

  /** Rows handed to the sink are applied, unapplied, discarded or still unanswered. */
  lemma {:induction false} RowsAreAccountedFor(es: seq<Event>)
    ensures RowsBalance(Run(es))
  {
    hide Step, RowsBalance, InChain, InOrder;
    if es != [] {
      RowsAreAccountedFor(es[..|es| - 1]);
      TurnsAreTaken(es[..|es| - 1]);
      StepKeepsRowsBalance(Run(es[..|es| - 1]), es[|es| - 1]);
    } else {
      FreshBalances(es);
    }
  }

  function Orphans(calls: seq<Call>): nat {
    if calls == [] then 0
    else Orphans(calls[..|calls| - 1]) + if HasAccount(calls[|calls| - 1]) then 0 else 1
  }

  ghost predicate CallsBalance(b: Buffer, calls: seq<Call>) {
    && b.stats.droppedNoAccount == Orphans(calls)
    && Orphans(calls) + CallsUsage(calls).calls == |calls|
  }

  lemma OrphansAppend(calls: seq<Call>, c: Call)
    ensures Orphans(calls + [c]) == Orphans(calls) + if HasAccount(c) then 0 else 1
  {
    hide HasAccount;
    assert (calls + [c])[..|calls|] == calls;
  }

  lemma RecordKeepsCallsBalance(b: Buffer, calls: seq<Call>, c: Call)
    requires CallsBalance(b, calls)
    ensures CallsBalance(Step(b, Record(c)), calls + [c])
  {
    hide HasAccount, Merged, Orphans, CallsUsage;
    OrphansAppend(calls, c);
    CallsUsageAppend(calls, c);
  }

  lemma DroppedIsKept(b: Buffer, e: Event)
    requires !e.Record?
    ensures Step(b, e).stats.droppedNoAccount == b.stats.droppedNoAccount
  {
    hide MayBegin, LandedRows;
  }

  lemma StepKeepsCallsBalance(b: Buffer, calls: seq<Call>, e: Event)
    requires CallsBalance(b, calls)
    ensures CallsBalance(Step(b, e), if e.Record? then calls + [e.call] else calls)
  {
    hide Step, Orphans, CallsUsage;
    if e.Record? {
      RecordKeepsCallsBalance(b, calls, e.call);
    } else {
      DroppedIsKept(b, e);
    }
  }

  /** Every recorded call is either counted as dropped or has its usage kept. */
  lemma {:induction false} OrphansAreCounted(es: seq<Event>)
    ensures CallsBalance(Run(es), Recorded(es))
  {
    hide CallsBalance, Recorded, Step;
    if es != [] {
      OrphansAreCounted(es[..|es| - 1]);
      RecordedStep(es);
      StepKeepsCallsBalance(Run(es[..|es| - 1]), Recorded(es[..|es| - 1]), es[|es| - 1]);
    } else {
      NothingRecorded(es);
    }
  }

  lemma NothingRecorded(es: seq<Event>)
    requires es == []
    ensures CallsBalance(Run(es), Recorded(es))
  {
    hide CallsUsage, Orphans, Step;
    NoUsage(Recorded(es), [], []);
  }

  function Flatten(parts: seq<seq<Call>>): seq<Call> {
    if parts == [] then [] else Flatten(parts[..|parts| - 1]) + parts[|parts| - 1]
  }

  /** The recorded calls cut into consecutive stretches: one merged into each batch, the rest into the window. */
  ghost predicate Cuts(es: seq<Event>, covered: seq<seq<Call>>, recent: seq<Call>) {
    var b := Run(es);
    && Flatten(covered) + recent == Recorded(es)
    && |covered| == |b.batches|
    && (forall i :: 0 <= i < |covered| ==> b.batches[i] == Merge(covered[i]))
    && b.window == Merge(recent)
  }

  lemma {:induction false} FlattenAppend(covered: seq<seq<Call>>, stretch: seq<Call>)
    ensures Flatten(covered + [stretch]) == Flatten(covered) + stretch
  {
    assert (covered + [stretch])[..|covered|] == covered;
  }

  lemma MergeAppend(recent: seq<Call>, c: Call)
    ensures Merge(recent + [c]) == Merged(Merge(recent), c)
  {
    hide Merged;
    assert (recent + [c])[..|recent|] == recent;
  }

  lemma Associates<T>(a: seq<T>, b: seq<T>, c: seq<T>)
    ensures a + (b + c) == (a + b) + c
  {
  }

  /** What a run adds to when one more event happens. */
  lemma RunAppend(es: seq<Event>, e: Event)
    ensures Run(es + [e]) == Step(Run(es), e)
    ensures Recorded(es + [e]) == if e.Record? then Recorded(es) + [e.call] else Recorded(es)
  {
    hide Step;
    assert (es + [e])[..|es|] == es;
  }

  lemma CutsRecord(es: seq<Event>, c: Call, covered: seq<seq<Call>>, recent: seq<Call>)
    requires Cuts(es, covered, recent)
    ensures Cuts(es + [Record(c)], covered, recent + [c])
  {
    hide Run, Recorded, Merge, Merged, Flatten, HasAccount;
    RunAppend(es, Record(c));
    MergeAppend(recent, c);
    OrphanIsNotMerged(Run(es).window, c);
    Associates(Flatten(covered), recent, [c]);
  }

  lemma CutsBegin(es: seq<Event>, t: nat, covered: seq<seq<Call>>, recent: seq<Call>)
    requires Cuts(es, covered, recent) && MayBegin(Run(es).tickets, t) && Run(es).window != []
    ensures Cuts(es + [SubmitBegins(t)], covered + [recent], [])
  {
    hide Run, Recorded, Merge, Flatten;
    RunAppend(es, SubmitBegins(t));
    FlattenAppend(covered, recent);
    NothingMerged();
    assert Flatten(covered + [recent]) + [] == Flatten(covered + [recent]);
  }

  lemma NothingMerged()
    ensures forall calls: seq<Call> :: calls == [] ==> Merge(calls) == []
  {
  }

  lemma CutsKept(es: seq<Event>, e: Event, covered: seq<seq<Call>>, recent: seq<Call>)
    requires Cuts(es, covered, recent) && !e.Record?
    requires e.SubmitBegins? ==> !MayBegin(Run(es).tickets, e.ticket) || Run(es).window == []
    ensures Cuts(es + [e], covered, recent)
  {
    hide Run, Recorded, Merge, Flatten, Settled;
    RunAppend(es, e);
  }

  /** The cut after one more event: a stretch is closed exactly when a submission takes the window. */
  function NextCut(b: Buffer, e: Event, covered: seq<seq<Call>>, recent: seq<Call>): (seq<seq<Call>>, seq<Call>) {
    if e.Record? then (covered, recent + [e.call])
    else if e.SubmitBegins? && MayBegin(b.tickets, e.ticket) && b.window != [] then (covered + [recent], [])
    else (covered, recent)
  }

  lemma CutsStep(es: seq<Event>, e: Event, covered: seq<seq<Call>>, recent: seq<Call>)
    requires Cuts(es, covered, recent)
    ensures var (c, r) := NextCut(Run(es), e, covered, recent); Cuts(es + [e], c, r)
  {
    hide Run, Cuts;
    if e.Record? {
      CutsRecord(es, e.call, covered, recent);
    } else if e.SubmitBegins? && MayBegin(Run(es).tickets, e.ticket) && Run(es).window != [] {
      CutsBegin(es, e.ticket, covered, recent);
    } else {
      CutsKept(es, e, covered, recent);
    }
  }

  /** The cut of a whole run. */
  function Cut(es: seq<Event>): (seq<seq<Call>>, seq<Call>) {
    if es == [] then ([], [])
    else
      var init := es[..|es| - 1];
      NextCut(Run(init), es[|es| - 1], Cut(init).0, Cut(init).1)
  }

  lemma OrphanIsNotMerged(rows: seq<Row>, c: Call)
    ensures !HasAccount(c) ==> Merged(rows, c) == rows
  {
  }

  lemma NothingCut(es: seq<Event>)
    requires es == []
    ensures Cuts(es, [], [])
  {
  }

  lemma {:induction false} CutIsRight(es: seq<Event>)
    ensures Cuts(es, Cut(es).0, Cut(es).1)
  {
    hide Cuts, NextCut, Run;
    if es == [] {
      NothingCut(es);
    } else {
      var init, e := es[..|es| - 1], es[|es| - 1];
      CutIsRight(init);
      CutsStep(init, e, Cut(init).0, Cut(init).1);
      assert init + [e] == es;
    }
  }

  /** Each batch is the merge of a consecutive stretch of the recorded calls, and so is the window after the last one. */
  lemma BatchesPartitionTheCalls(es: seq<Event>)
    returns (covered: seq<seq<Call>>, recent: seq<Call>)
    ensures Cuts(es, covered, recent)
    ensures (covered, recent) == Cut(es)
  {
    hide Cuts, Cut;
    CutIsRight(es);
    covered, recent := Cut(es).0, Cut(es).1;
  }

  /** Every row ever submitted whose dimensions hold no movable bar sums exactly the calls of its stretch with its dimensions. */
  lemma BatchRowsAreExact(es: seq<Event>, i: nat, j: nat)
    returns (covered: seq<seq<Call>>, recent: seq<Call>)
    requires i < |Run(es).batches| && j < |Run(es).batches[i]| && !HasMovableBar(Run(es).batches[i][j].dims)
    ensures Cuts(es, covered, recent)
    ensures Run(es).batches[i][j].usage == DimsUsage(covered[i], Run(es).batches[i][j].dims)
  {
    hide Run, Recorded, Merge, DimsUsage, HasMovableBar;
    covered, recent := BatchesPartitionTheCalls(es);
    MergeIsExact(covered[i], j);
  }

  // ---------- a flush covers what came before it ----------

  /** The calls that are not yet behind an answered submission. */
  function Outstanding(b: Buffer): nat {
    RowsUsage(b.window).calls + RowsUsage(Unanswered(b.tickets)).calls
  }

  /** The timer was started, and nothing has stopped the buffer since. */
  function TimerRuns(es: seq<Event>): bool {
    es != [] && (es[|es| - 1].StartTimer? || (!es[|es| - 1].StopCalled? && TimerRuns(es[..|es| - 1])))
  }

  lemma {:induction false} TimerIsArmed(es: seq<Event>)
    ensures Run(es).timerArmed <==> TimerRuns(es)
  {
    hide HasAccount, Merged, Settled, MayBegin;
    if es != [] {
      TimerIsArmed(es[..|es| - 1]);
    }
  }

  /** What queues a submission: a flush, a stop, or the timer while it runs. */
  predicate Flushes(before: seq<Event>, e: Event) {
    e.FlushCalled? || e.StopCalled? || (e.TimerFires? && TimerRuns(before))
  }

  /** Exactly these events queue a submission, one each, chained to the one queued before. */
  lemma FlushesExactly(before: seq<Event>, e: Event)
    ensures var tickets, later := Run(before).tickets, Run(before + [e]).tickets;
            if Flushes(before, e) then
              later == tickets + [Ticket(if tickets == [] then None else Some(|tickets| - 1), Waiting)]
            else |later| == |tickets|
  {
    hide Run, Recorded, HasAccount, Merged, Settled, TimerRuns;
    RunAppend(before, e);
    TimerIsArmed(before);
    TurnsAreTaken(before);
  }

  /**
   A submission that begins takes the whole window, hands it over as one batch and leaves the window empty; with nothing
   to hand over it is over at once, and the sink hears nothing.
   */
  lemma SubmissionExactly(es: seq<Event>, t: nat)
    requires MayBegin(Run(es).tickets, t)
    ensures var b, b' := Run(es), Step(Run(es), SubmitBegins(t));
            && t < |b'.tickets| && b'.window == []
            && if b.window == [] then b'.tickets[t].progress == Ended && b'.batches == b.batches
               else b'.tickets[t].progress == Running(b.window) && b'.batches == b.batches + [b.window]
  {
    hide Run;
  }

  lemma {:induction false} NoEmptyBatch(es: seq<Event>, i: nat)
    requires i < |Run(es).batches|
    ensures Run(es).batches[i] != []
  {
    hide HasAccount, Merged, Settled, MayBegin;
    if i < |Run(es[..|es| - 1]).batches| {
      NoEmptyBatch(es[..|es| - 1], i);
    }
  }

  /** How much may still be unanswered once submission `n` has started or ended. */
  ghost predicate Drained(b: Buffer, n: nat, newer: nat) {
    && n < |b.tickets|
    && (b.tickets[n].progress != Waiting ==> RowsUsage(b.window).calls <= newer)
    && (b.tickets[n].progress == Ended ==> Outstanding(b) <= newer)
  }

  lemma RecordDrains(b: Buffer, c: Call, n: nat, newer: nat)
    requires Drained(b, n, newer)
    ensures Drained(Step(b, Record(c)), n, newer + 1)
  {
    hide HasAccount, Merged, Unanswered;
    MergedAddsUp(b.window, c);
    assert UsageOf(c).calls == 1;
  }

  lemma NoRowsNoCalls(rows: seq<Row>)
    ensures rows == [] ==> RowsUsage(rows).calls == 0
  {
  }

  lemma DrainedStep(b: Buffer, e: Event, n: nat, newer: nat)
    requires Drained(b, n, newer) && InChain(b) && InOrder(b.tickets)
    ensures Drained(Step(b, e), n, newer + if e.Record? then 1 else 0)
  {
    hide HasAccount, Merged, Settled, RowsUsage, Unanswered, InChain;
    if e.Record? {
      RecordDrains(b, e.call, n, newer);
    } else {
      UnansweredStep(b, e);
      NoRowsNoCalls([]);
      NoRowsNoCalls(b.window);
      NoRowsNoCalls(Step(b, e).window);
      NoRowsNoCalls(Unanswered(b.tickets));
      NoRowsNoCalls(Unanswered(Step(b, e).tickets));
      if e.SubmitBegins? && MayBegin(b.tickets, e.ticket) { BeginnerIsAlone(b, e.ticket); }
      hide MayBegin;
    }
  }

  lemma {:induction false} DrainedRun(before: seq<Event>, after: seq<Event>, n: nat)
    requires n < |Run(before).tickets| && Run(before).tickets[n].progress == Waiting
    ensures Drained(Run(before + after), n, |Recorded(after)|)
  {
    hide Drained, Step, Recorded, InChain, InOrder;
    if after == [] {
      assert before + after == before;
      WaitingIsDrained(Run(before), n, |Recorded(after)|);
    } else {
      RecordedStep(after);
      var shorter, e := after[..|after| - 1], after[|after| - 1];
      DrainedRun(before, shorter, n);
      assert (before + after)[..|before + after| - 1] == before + shorter;
      TurnsAreTaken(before + shorter);
      DrainedStep(Run(before + shorter), e, n, |Recorded(shorter)|);
    }
  }

  lemma WaitingIsDrained(b: Buffer, n: nat, newer: nat)
    requires n < |b.tickets| && b.tickets[n].progress == Waiting
    ensures Drained(b, n, newer)
  {
  }

  /** Once the submission queued by a flush or by stopping has ended, no more calls are outstanding than were recorded later. */
  lemma FlushBoundsOutstanding(before: seq<Event>, flush: Event, after: seq<Event>)
    requires Flushes(before, flush)
    ensures var b, n := Run(before + [flush] + after), |Run(before).tickets|;
            n < |b.tickets| && (b.tickets[n].progress == Ended ==> Outstanding(b) <= |Recorded(after)|)
  {
    FlushQueues(before, flush);
    hide Run;
    DrainedRun(before + [flush], after, |Run(before).tickets|);
  }

  /** The submission that took each batch, in the order of the batches. */
  function BatchTickets(es: seq<Event>): seq<nat> {
    if es == [] then []
    else
      var init, e := es[..|es| - 1], es[|es| - 1];
      NextTickets(Run(init), e, BatchTickets(init))
  }

  function NextTickets(b: Buffer, e: Event, taken: seq<nat>): seq<nat> {
    if e.SubmitBegins? && MayBegin(b.tickets, e.ticket) && b.window != [] then taken + [e.ticket] else taken
  }

  /** Each batch was taken by a submission that has started, and is what that submission handed over. */
  predicate Taken(b: Buffer, taken: seq<nat>) {
    && |taken| == |b.batches|
    && forall i :: 0 <= i < |taken| ==>
         && taken[i] < |b.tickets|
         && b.tickets[taken[i]].progress != Waiting
         && (b.tickets[taken[i]].progress.Running? ==> b.tickets[taken[i]].progress.rows == b.batches[i])
  }

  lemma StepKeepsTaken(b: Buffer, e: Event, taken: seq<nat>)
    requires Taken(b, taken)
    ensures Taken(Step(b, e), NextTickets(b, e, taken))
  {
    hide HasAccount, Merged, Settled;
  }

  lemma {:induction false} BatchesAreTaken(es: seq<Event>)
    ensures Taken(Run(es), BatchTickets(es))
  {
    hide Step, NextTickets, Taken;
    if es != [] {
      BatchesAreTaken(es[..|es| - 1]);
      StepKeepsTaken(Run(es[..|es| - 1]), es[|es| - 1], BatchTickets(es[..|es| - 1]));
    } else {
      NothingTaken(es);
    }
  }

  lemma NothingTaken(es: seq<Event>)
    requires es == []
    ensures Taken(Run(es), BatchTickets(es))
  {
  }

  /** The call at position `k` of the record lies in stretch `i`. */
  predicate LiesIn(covered: seq<seq<Call>>, i: nat, k: nat) {
    i < |covered| && |Flatten(covered[..i])| <= k < |Flatten(covered[..i + 1])|
  }

  lemma {:induction false} FindStretch(covered: seq<seq<Call>>, k: nat) returns (i: nat)
    requires k < |Flatten(covered)|
    ensures LiesIn(covered, i, k)
  {
    var init := covered[..|covered| - 1];
    if k < |Flatten(init)| {
      i := FindStretch(init, k);
      assert init[..i] == covered[..i] && init[..i + 1] == covered[..i + 1];
    } else {
      i := |covered| - 1;
      assert covered[..i + 1] == covered;
    }
  }

  lemma LiesInLonger(covered: seq<seq<Call>>, more: seq<seq<Call>>, i: nat, k: nat)
    requires LiesIn(covered, i, k) && covered <= more
    ensures LiesIn(more, i, k)
  {
    hide Flatten;
    assert covered[..i] == more[..i] && covered[..i + 1] == more[..i + 1];
  }

  lemma LiesInLast(covered: seq<seq<Call>>, stretch: seq<Call>, k: nat)
    requires |Flatten(covered)| <= k < |Flatten(covered)| + |stretch|
    ensures LiesIn(covered + [stretch], |covered|, k)
  {
    FlattenAppend(covered, stretch);
    hide Flatten;
    assert (covered + [stretch])[..|covered|] == covered;
    assert (covered + [stretch])[..|covered| + 1] == covered + [stretch];
  }

  lemma {:induction false} AccountsAreMerged(calls: seq<Call>, k: nat)
    requires k < |calls| && HasAccount(calls[k])
    ensures Merge(calls) != []
  {
    hide HasAccount, Key;
    if k < |calls| - 1 {
      AccountsAreMerged(calls[..|calls| - 1], k);
    }
  }

  lemma {:induction false} RecordGrows(a: seq<Event>, b: seq<Event>)
    ensures Recorded(a) <= Recorded(a + b)
  {
    hide Recorded;
    if b == [] {
      assert a + b == a;
    } else {
      RecordGrows(a, b[..|b| - 1]);
      assert a + b == (a + b[..|b| - 1]) + [b[|b| - 1]];
      RunAppend(a + b[..|b| - 1], b[|b| - 1]);
    }
  }

  /** The call at position `k` is behind a submission no later than `n`. */
  predicate CoveredBy(es: seq<Event>, n: nat, k: nat) {
    exists i :: 0 <= i < |BatchTickets(es)| && LiesIn(Cut(es).0, i, k) && BatchTickets(es)[i] <= n
  }

  lemma CoverageGrows(es: seq<Event>, e: Event, n: nat, k: nat)
    requires CoveredBy(es, n, k)
    ensures CoveredBy(es + [e], n, k)
  {
    hide Run, Cut, BatchTickets, LiesIn;
    UnfoldAppend(es, e);
    var i :| 0 <= i < |BatchTickets(es)| && LiesIn(Cut(es).0, i, k) && BatchTickets(es)[i] <= n;
    LiesInLonger(Cut(es).0, Cut(es + [e]).0, i, k);
  }

  lemma UnfoldAppend(es: seq<Event>, e: Event)
    ensures Run(es + [e]) == Step(Run(es), e)
    ensures Cut(es + [e]) == NextCut(Run(es), e, Cut(es).0, Cut(es).1)
    ensures BatchTickets(es + [e]) == NextTickets(Run(es), e, BatchTickets(es))
  {
    hide Step, NextCut, NextTickets;
    assert (es + [e])[..|es|] == es;
  }

  /** When submission `n` starts, every call with an account recorded so far is behind it or an earlier one. */
  lemma BeginCovers(es: seq<Event>, n: nat, k: nat)
    requires MayBegin(Run(es).tickets, n) && k < |Recorded(es)| && HasAccount(Recorded(es)[k])
    ensures CoveredBy(es + [SubmitBegins(n)], n, k)
  {
    hide Run, Recorded, Cut, BatchTickets, HasAccount, Merge, Flatten, LiesIn, MayBegin, InChain;
    var b, covered, recent := Run(es), Cut(es).0, Cut(es).1;
    CutIsRight(es);
    BatchesAreTaken(es);
    TurnsAreTaken(es);
    UnfoldAppend(es, SubmitBegins(n));
    if k < |Flatten(covered)| {
      var i := FindStretch(covered, k);
      StretchIndex(covered, i, k);
      EarlierBatch(b, BatchTickets(es), n, i);
      LiesInLonger(covered, Cut(es + [SubmitBegins(n)]).0, i, k);
    } else {
      AccountsAreMerged(recent, k - |Flatten(covered)|);
      LiesInLast(covered, recent, k);
      assert BatchTickets(es + [SubmitBegins(n)])[|covered|] == n;
    }
  }

  lemma StretchIndex(covered: seq<seq<Call>>, i: nat, k: nat)
    requires LiesIn(covered, i, k)
    ensures i < |covered|
  {
  }

  lemma EarlierBatch(b: Buffer, taken: seq<nat>, n: nat, i: nat)
    requires Taken(b, taken) && InOrder(b.tickets) && MayBegin(b.tickets, n) && i < |taken|
    ensures taken[i] < n
  {
  }

  lemma {:induction false} StartedCovers(before: seq<Event>, after: seq<Event>, n: nat, k: nat)
    requires n < |Run(before).tickets| && Run(before).tickets[n].progress == Waiting
    requires k < |Recorded(before)| && HasAccount(Recorded(before)[k])
    ensures n < |Run(before + after).tickets|
    ensures Run(before + after).tickets[n].progress == Waiting || CoveredBy(before + after, n, k)
  {
    hide Run, Recorded, HasAccount, CoveredBy;
    if after == [] {
      assert before + after == before;
    } else {
      var shorter, e := before + after[..|after| - 1], after[|after| - 1];
      StartedCovers(before, after[..|after| - 1], n, k);
      assert before + after == shorter + [e];
      RunAppend(shorter, e);
      WaitsOrBegins(Run(shorter), e, n);
      RecordGrows(before, after[..|after| - 1]);
      if CoveredBy(shorter, n, k) {
        CoverageGrows(shorter, e, n, k);
      } else if e == SubmitBegins(n) && MayBegin(Run(shorter).tickets, n) {
        BeginCovers(shorter, n, k);
      }
    }
    hide Step, MayBegin;
  }

  lemma WaitsOrBegins(b: Buffer, e: Event, n: nat)
    requires n < |b.tickets|
    ensures n < |Step(b, e).tickets|
    ensures b.tickets[n].progress == Waiting && Step(b, e).tickets[n].progress != Waiting ==>
              e == SubmitBegins(n) && MayBegin(b.tickets, n)
  {
    hide HasAccount, Merged, Settled;
  }

  /**
   Once the submission queued by a flush or by stopping has ended, every call with an account that was recorded before
   lies in a stretch whose rows were handed over by that submission or an earlier one, and that submission has ended too.
   */
  lemma FlushCoversEarlierCalls(before: seq<Event>, flush: Event, after: seq<Event>, k: nat) returns (i: nat)
    requires Flushes(before, flush)
    requires k < |Recorded(before)| && HasAccount(Recorded(before)[k])
    requires var b, n := Run(before + [flush] + after), |Run(before).tickets|;
             n < |b.tickets| ==> b.tickets[n].progress == Ended
    ensures var es := before + [flush] + after;
            var (covered, recent) := Cut(es);
            && Cuts(es, covered, recent) && Recorded(before) <= Recorded(es)
            && LiesIn(covered, i, k) && i < |Run(es).batches|
            && Taken(Run(es), BatchTickets(es))
            && Run(es).tickets[BatchTickets(es)[i]].progress == Ended
  {
    hide Run, Recorded, HasAccount, Cut, Cuts, LiesIn, BatchTickets, CoveredBy, Taken;
    var es, n := before + [flush] + after, |Run(before).tickets|;
    FlushQueues(before, flush);
    RecordGrows(before, [flush]);
    RecordGrows(before + [flush], after);
    StartedCovers(before + [flush], after, n, k);
    i := EndedCovers(es, n, k);
    CutIsRight(es);
  }

  lemma EndedCovers(es: seq<Event>, n: nat, k: nat) returns (i: nat)
    requires n < |Run(es).tickets| && Run(es).tickets[n].progress == Ended && CoveredBy(es, n, k)
    ensures Taken(Run(es), BatchTickets(es)) && LiesIn(Cut(es).0, i, k) && i < |Run(es).batches|
    ensures Run(es).tickets[BatchTickets(es)[i]].progress == Ended
  {
    hide Run, Cut, LiesIn, BatchTickets, InChain;
    BatchesAreTaken(es);
    TurnsAreTaken(es);
    i :| 0 <= i < |BatchTickets(es)| && LiesIn(Cut(es).0, i, k) && BatchTickets(es)[i] <= n;
  }

  lemma FlushQueues(before: seq<Event>, flush: Event)
    requires Flushes(before, flush)
    ensures var n := |Run(before).tickets|;
            n < |Run(before + [flush]).tickets| && Run(before + [flush]).tickets[n].progress == Waiting
  {
    hide Run;
    FlushesExactly(before, flush);
  }

  // ---------- the object ----------

  /** The source's insertion-ordered map, as its entries by key and the keys in order. */
  predicate Ordered(entries: map<string, Row>, order: seq<string>) {
    && (forall i :: 0 <= i < |order| ==> order[i] in entries && Key(entries[order[i]].dims) == order[i])
    && (forall key :: key in entries ==> key in order)
    && (forall i, j :: 0 <= i < j < |order| ==> order[i] != order[j])
  }

  function Values(entries: map<string, Row>, order: seq<string>): (rows: seq<Row>)
    requires Ordered(entries, order)
    ensures |rows| == |order| && forall i :: 0 <= i < |order| ==> rows[i] == entries[order[i]]
  {
    seq(|order|, i requires 0 <= i < |order| => entries[order[i]])
  }

  /** Looking a key up, updating its entry in place or adding an entry is exactly merging into the ordered values. */
  lemma EntryMerges(entries: map<string, Row>, order: seq<string>, d: Dims, u: Usage)
    requires Ordered(entries, order)
    ensures var key := Key(d);
            var entries' := entries[key := if key in entries then entries[key].(usage := entries[key].usage.Plus(u)) else Row(d, u)];
            var order' := if key in entries then order else order + [key];
            && Ordered(entries', order')
            && Values(entries', order') == MergedInto(Values(entries, order), d, u)
  {
    hide Key, MergedInto, Usage.Plus;
    var rows := Values(entries, order);
    MergedIntoAt(rows, d, u);
    assert HasRow(rows, Key(d)) <==> Key(d) in entries by {
      if Key(d) in entries {
        var i :| 0 <= i < |order| && order[i] == Key(d);
        assert Key(rows[i].dims) == Key(d);
      }
    }
  }

  class MergeBuffer {
    var entries: map<string, Row>
    var order: seq<string>
    ghost var batches: seq<seq<Row>>
    var tickets: seq<Ticket>
    var flushing: Option<nat>
    var timerArmed: bool
    var stats: Stats

    ghost predicate Valid()
      reads this
    {
      Ordered(entries, order)
    }

    ghost function View(): Buffer
      reads this
      requires Valid()
    {
      Buffer(Values(entries, order), batches, tickets, flushing, timerArmed, stats)
    }

    constructor ()
      ensures Valid() && View() == Fresh
    {
      entries, order, batches := map[], [], [];
      tickets, flushing := [], None;
      timerArmed, stats := false, Stats(0, 0, 0, 0);
    }

    method RecordCall(call: Call)
      requires Valid()
      modifies this
      ensures Valid() && View() == Step(old(View()), Record(call))
    {
      hide Key, Text.Trim, MergedInto, Usage.Plus, Ordered, Dimension, UsageOf;
      var accountId := Text.Trim(call.accountId.GetOr(""));
      if accountId == "" {
        stats := stats.(droppedNoAccount := stats.droppedNoAccount + 1);
        return;
      }
      AddUsage(DimsOf(call), UsageOf(call));
    }

    method AddUsage(d: Dims, u: Usage)
      requires Ordered(entries, order)
      modifies this`entries, this`order
      ensures Ordered(entries, order)
      ensures Values(entries, order) == MergedInto(old(Values(entries, order)), d, u)
    {
      hide Key, MergedInto, Usage.Plus, Ordered, Values;
      EntryMerges(entries, order, d, u);
      var key := Key(d);
      if key in entries {
        entries := entries[key := entries[key].(usage := entries[key].usage.Plus(u))];
      } else {
        entries := entries[key := Row(d, u)];
        order := order + [key];
      }
    }

    method Start()
      requires Valid()
      modifies this`timerArmed
      ensures Valid() && View() == Step(old(View()), StartTimer)
    {
      if timerArmed {
        return;
      }
      timerArmed := true;
    }

    method OnTimer()
      requires Valid()
      modifies this`tickets, this`flushing
      ensures Valid() && View() == Step(old(View()), TimerFires)
    {
      if timerArmed {
        Flush();
      }
    }

    method Flush()
      requires Valid()
      modifies this`tickets, this`flushing
      ensures Valid() && View() == Step(old(View()), FlushCalled)
    {
      var next := |tickets|;
      tickets := tickets + [Ticket(flushing, Waiting)];
      flushing := Some(next);
    }

    method Stop()
      requires Valid()
      modifies this`tickets, this`flushing, this`timerArmed
      ensures Valid() && View() == Step(old(View()), StopCalled)
    {
      if timerArmed {
        timerArmed := false;
      }
      Flush();
    }

    /** The part of a submission before its await, run once the promise it was chained to has settled. */
    method Submit(t: nat)
      requires Valid() && MayBegin(tickets, t)
      modifies this
      ensures Valid() && View() == Step(old(View()), SubmitBegins(t))
    {
      hide Key;
      if |order| == 0 {
        tickets := tickets[t := tickets[t].(progress := Ended)];
        return;
      }
      var rows := Values(entries, order);
      entries, order := map[], [];
      batches := batches + [rows];
      tickets := tickets[t := tickets[t].(progress := Running(rows))];
    }

    /** The part after its await. */
    method OnAnswer(t: nat, answer: Answer)
      requires Valid() && t < |tickets| && tickets[t].progress.Running?
      modifies this
      ensures Valid() && View() == Step(old(View()), SinkAnswers(t, answer))
    {
      var rows := tickets[t].progress.rows;
      tickets := tickets[t := tickets[t].(progress := Ended)];
      match answer
      case Rejected =>
        stats := stats.(discardedRows := stats.discardedRows + |rows|);
      case Landed(q) =>
        var landed := LandedRows(q);
        stats := stats.(appliedRows := stats.appliedRows + if landed < |rows| then landed else |rows|);
        if landed < |rows| {
          stats := stats.(unappliedRows := stats.unappliedRows + (|rows| - landed));
        }
    }
  }
}
