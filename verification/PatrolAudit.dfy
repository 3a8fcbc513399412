/**
 An independent reading of a patrol run from its event log alone. `Observe` is an automaton over the log: it
 knows nothing of timers, attempt counters or role fields, only of what was announced so far.
 */
module PatrolAudit {
  import opened Wrappers
  import opened PatrolModel

  /**
   `legal`: requests and endings have alternated so far, every ending naming the epoch of its request.
   `open`: the epoch requested and neither ended nor dropped by a session reset.
   */
  datatype Alternation = Alternation(legal: bool, open: Option<int>)

  function Alternate(a: Alternation, e: Event): Alternation {
    match e
    case ExcursionRequested(epoch) => Alternation(a.legal && a.open.None?, Some(epoch))
    case ExcursionEnded(epoch, _) => Alternation(a.legal && a.open == Some(epoch), None)
    case SessionReset => a.(open := None)
    case _ => a
  }

  function Alternations(trace: seq<Event>): Alternation {
    if trace == [] then Alternation(true, None)
    else Alternate(Alternations(trace[..|trace| - 1]), trace[|trace| - 1])
  }

  /** The excursion's part of the log. */
  datatype Audit = Audit(
    /** Category browse commands and read-only (non-back) home openings since the last request. */
    browses: nat,
    opens: nat,
    /** The category announced last since the last request. */
    selected: Option<Category>,
    /** Every entry to the feed was announced with browsing not suspended. */
    thawed: bool,
    /** Every notify call was made for the open excursion while its last announced category was comments. */
    notifiedInTurn: bool,
    /** Keys of the items whose push was announced as delivered, and whether no such item was ever pushed again. */
    delivered: set<string>,
    unseenOnly: bool,
    /** Pushes handed over and not settled, and whether every settling was of such a push. */
    outstanding: multiset<Push>,
    settlesKnown: bool)

  const Unobserved := Audit(0, 0, None, true, true, {}, true, multiset{}, true)

  function Settle(a: Audit, p: Push): Audit {
    a.(settlesKnown := a.settlesKnown && p in a.outstanding, outstanding := a.outstanding - multiset{p})
  }

  /** `open` is the epoch open before the event. */
  function Observe(a: Audit, open: Option<int>, e: Event): Audit {
    match e
    case ExcursionRequested(_) => a.(browses := 0, opens := 0, selected := None)
    case BrowseCategory(_, _) => a.(browses := a.browses + 1)
    case HomeOpening(_, back) => if back then a else a.(opens := a.opens + 1)
    case CategorySelected(cat, _) => a.(selected := Some(cat))
    case FeedEntered(_, _, frozen) => a.(thawed := a.thawed && !frozen)
    case NotifyCalled(items, epoch) =>
      a.(notifiedInTurn := a.notifiedInTurn && open == Some(epoch) && a.selected == Some(Comments),
         unseenOnly := a.unseenOnly && KeysOf(items) !! a.delivered,
         outstanding := a.outstanding + multiset{Push(items, epoch)})
    case Notified(items, epoch) => Settle(a, Push(items, epoch)).(delivered := a.delivered + KeysOf(items))
    case NotifyFailed(items, epoch) => Settle(a, Push(items, epoch))
    case _ => a
  }

  function Fold(trace: seq<Event>): Audit {
    if trace == [] then Unobserved
    else
      var before := trace[..|trace| - 1];
      Observe(Fold(before), Alternations(before).open, trace[|trace| - 1])
  }

  /** The self-capture's part of the log. */
  datatype CaptureAudit = CaptureAudit(
    /** A capture is armed and neither finished nor dropped, and no capture was armed twice or finished twice. */
    capturing: bool,
    once: bool,
    /** The id under which the armed capture was requested, and whether every nickname written answered such an id. */
    requested: Option<string>,
    answered: bool,
    /** Every startup id consumed so far, oldest first. */
    ids: seq<string>,
    /** The last consumed id while no capture was armed with it, and whether every arming used such an id. */
    unused: Option<string>,
    armsFresh: bool)

  const NoCaptures := CaptureAudit(false, true, None, true, [], None, true)

  function ObserveCapture(a: CaptureAudit, e: Event): CaptureAudit {
    match e
    case StartupConsumed(id) => a.(ids := a.ids + [id], unused := Some(id))
    case CaptureArmed(id) =>
      a.(capturing := true, once := a.once && !a.capturing, unused := None, armsFresh := a.armsFresh && a.unused == Some(id))
    case CaptureRequested(_, captureId) => a.(requested := Some(captureId))
    case NicknameWritten(_, _, answering) => a.(answered := a.answered && a.requested == Some(answering))
    case CaptureFinished(_) => a.(capturing := false, once := a.once && a.capturing, requested := None)
    case SessionReset => a.(capturing := false, requested := None)
    case _ => a
  }

  function FoldCaptures(trace: seq<Event>): CaptureAudit {
    if trace == [] then NoCaptures
    else ObserveCapture(FoldCaptures(trace[..|trace| - 1]), trace[|trace| - 1])
  }

  lemma FoldAppend(t: seq<Event>, e: Event)
    ensures Alternations(t + [e]) == Alternate(Alternations(t), e)
    ensures Fold(t + [e]) == Observe(Fold(t), Alternations(t).open, e)
    ensures FoldCaptures(t + [e]) == ObserveCapture(FoldCaptures(t), e)
  {
    assert (t + [e])[..|t|] == t;
  }

  lemma FoldAppends()
    ensures forall t: seq<Event>, e: Event {:trigger Alternations(t + [e])} ::
              Alternations(t + [e]) == Alternate(Alternations(t), e)
    ensures forall t: seq<Event>, e: Event {:trigger Fold(t + [e])} ::
              Fold(t + [e]) == Observe(Fold(t), Alternations(t).open, e)
    ensures forall t: seq<Event>, e: Event {:trigger FoldCaptures(t + [e])} ::
              FoldCaptures(t + [e]) == ObserveCapture(FoldCaptures(t), e)
  {
    forall t: seq<Event>, e: Event
      ensures Alternations(t + [e]) == Alternate(Alternations(t), e)
      ensures Fold(t + [e]) == Observe(Fold(t), Alternations(t).open, e)
      ensures FoldCaptures(t + [e]) == ObserveCapture(FoldCaptures(t), e)
    {
      FoldAppend(t, e);
    }
  }

  // ---------- what the automaton's verdicts say about positions in the log ----------

  predicate Closes(e: Event, epoch: int) {
    e.SessionReset? || (e.ExcursionEnded? && e.epoch == epoch)
  }

  /** An open epoch was requested at some position, with nothing ended, reset or requested since. */
  lemma {:induction false} OpenSince(trace: seq<Event>) returns (k: nat)
    requires Alternations(trace).open.Some? && Alternations(trace).legal
    ensures k < |trace| && trace[k] == ExcursionRequested(Alternations(trace).open.value)
    ensures forall j :: k < j < |trace| ==> !trace[j].ExcursionRequested? && !trace[j].ExcursionEnded? && !trace[j].SessionReset?
  {
    var n := |trace| - 1;
    var before, last := trace[..n], trace[n];
    if last.ExcursionRequested? {
      k := n;
    } else {
      assert Alternations(before).open == Alternations(trace).open && Alternations(before).legal;
      k := OpenSince(before);
      assert forall j :: k < j < n ==> trace[j] == before[j];
    }
  }

  lemma {:induction false} AlternatesPrefix(trace: seq<Event>, n: nat)
    requires n <= |trace| && Alternations(trace).legal
    ensures Alternations(trace[..n]).legal
    decreases |trace|
  {
    if n < |trace| {
      assert trace[..|trace| - 1][..n] == trace[..n];
      AlternatesPrefix(trace[..|trace| - 1], n);
    } else {
      assert trace[..n] == trace;
    }
  }

  /** Every ending answers a request of the same epoch, and no other request or ending lies between the two. */
  lemma EndingAnswersRequest(trace: seq<Event>, j: nat) returns (i: nat)
    requires Alternations(trace).legal && j < |trace| && trace[j].ExcursionEnded?
    ensures i < j && trace[i] == ExcursionRequested(trace[j].epoch)
    ensures forall k :: i < k < j ==> !trace[k].ExcursionRequested? && !trace[k].ExcursionEnded? && !trace[k].SessionReset?
  {
    AlternatesPrefix(trace, j + 1);
    AlternatesPrefix(trace, j);
    assert trace[..j + 1][..j] == trace[..j];
    i := OpenSince(trace[..j]);
  }

  /** Between two requests lies the end of the first, or a session reset. */
  lemma {:induction false} RequestsAreSeparated(trace: seq<Event>, i: nat, j: nat) returns (k: nat)
    requires Alternations(trace).legal && i < j < |trace|
    requires trace[i].ExcursionRequested? && trace[j].ExcursionRequested?
    ensures i < k < j && Closes(trace[k], trace[i].epoch)
  {
    AlternatesPrefix(trace, j + 1);
    AlternatesPrefix(trace, j);
    assert trace[..j + 1][..j] == trace[..j];
    k := ClosedAfter(trace[..j], i);
  }

  lemma {:induction false} ClosedAfter(trace: seq<Event>, i: nat) returns (k: nat)
    requires i < |trace| && trace[i].ExcursionRequested?
    requires Alternations(trace).legal && Alternations(trace).open.None?
    ensures i < k < |trace| && Closes(trace[k], trace[i].epoch)
  {
    var n := |trace| - 1;
    var before := trace[..n];
    if trace[n].SessionReset? {
      k := n;
    } else if trace[n].ExcursionEnded? {
      var r := OpenSince(before);
      if r == i {
        k := n;
      } else if r > i {
        k := RequestsAreSeparated(before, i, r);
      } else {
        assert false;
      }
    } else {
      k := ClosedAfter(before, i);
    }
  }
}
