/** The session context's memory of browsed cards: the bounded recency list and the two batch baselines. */
module BrowseHistory {

  const CAP: nat := 30

  // ---------- recency ----------

  /** The distinct ids of a history, ordered by their last occurrence. */
  function ByLastOccurrence<T(==)>(h: seq<T>): seq<T> {
    if h == [] then []
    else (if h[0] in h[1..] then [] else [h[0]]) + ByLastOccurrence(h[1..])
  }

  function LastOf<T>(xs: seq<T>): seq<T> {
    if |xs| <= 30 then xs else xs[|xs| - 30..]
  }

  function Without<T(==)>(xs: seq<T>, x: T): seq<T> {
    if xs == [] then []
    else (if xs[0] == x then [] else [xs[0]]) + Without(xs[1..], x)
  }

  predicate Distinct<T(==)>(xs: seq<T>) {
    forall i, j :: 0 <= i < j < |xs| ==> xs[i] != xs[j]
  }

  lemma {:induction false} WithoutConcat<T>(a: seq<T>, b: seq<T>, x: T)
    ensures Without(a + b, x) == Without(a, x) + Without(b, x)
  {
    if a == [] {
      assert a + b == b;
    } else {
      assert (a + b)[1..] == a[1..] + b;
      WithoutConcat(a[1..], b, x);
    }
  }

  lemma {:induction false} WithoutAbsent<T>(xs: seq<T>, x: T)
    requires x !in xs
    ensures Without(xs, x) == xs
  {
    if xs != [] {
      WithoutAbsent(xs[1..], x);
    }
  }

  lemma WithoutOne<T>(y: T, x: T)
    ensures Without([y], x) == if y == x then [] else [y]
  {
    assert [y][1..] == [];
  }

  lemma WithoutMiddle<T>(a: seq<T>, x: T, b: seq<T>)
    requires x !in a && x !in b
    ensures Without(a + ([x] + b), x) == a + b
  {
    hide Without;
    WithoutConcat(a, [x] + b, x);
    WithoutConcat([x], b, x);
    WithoutAbsent(a, x);
    WithoutAbsent(b, x);
    WithoutOne(x, x);
    assert [] + b == b;
  }

  /** Removing the one occurrence of an element cuts the list at its position. */
  lemma WithoutAt<T>(xs: seq<T>, i: nat)
    requires Distinct(xs) && i < |xs|
    ensures Without(xs, xs[i]) == xs[..i] + xs[i + 1..]
  {
    hide Without;
    SplitAt(xs, i);
    assert xs[i] !in xs[..i] && xs[i] !in xs[i + 1..];
    WithoutMiddle(xs[..i], xs[i], xs[i + 1..]);
  }

  lemma SplitAt<T>(xs: seq<T>, i: nat)
    requires i < |xs|
    ensures xs == xs[..i] + ([xs[i]] + xs[i + 1..])
  {
  }

  lemma {:induction false} ByLastMembers<T(!new)>(h: seq<T>)
    ensures forall x :: x in ByLastOccurrence(h) <==> x in h
    ensures Distinct(ByLastOccurrence(h))
  {
    if h != [] {
      ByLastMembers(h[1..]);
    }
  }

  lemma ByLastCons<T>(head: T, tail: seq<T>)
    ensures ByLastOccurrence([head] + tail) == (if head in tail then [] else [head]) + ByLastOccurrence(tail)
  {
    assert ([head] + tail)[1..] == tail;
  }

  /** A new occurrence moves its id to the end and leaves the order of the others. */
  lemma {:induction false} ByLastAppend<T>(h: seq<T>, x: T)
    ensures ByLastOccurrence(h + [x]) == Without(ByLastOccurrence(h), x) + [x]
  {
    if h == [] {
      assert h + [x] == [x] + [];
      ByLastCons(x, []);
      assert ByLastOccurrence(h) == [] && Without([], x) == [];
    } else {
      hide ByLastOccurrence, Without;
      var head, tail := h[0], h[1..];
      assert h == [head] + tail;
      Assoc([head], tail, [x]);
      ByLastAppend(tail, x);
      ByLastCons(head, tail);
      ByLastCons(head, tail + [x]);
      var rest := ByLastOccurrence(tail);
      var kept := if head in tail || head == x then [] else [head];
      MovedToEnd(if head in tail then [] else [head], rest, x);
      Assoc(kept, Without(rest, x), [x]);
    }
  }

  lemma Assoc<T>(a: seq<T>, b: seq<T>, c: seq<T>)
    ensures (a + b) + c == a + (b + c)
  {
  }

  lemma MovedToEnd<T>(front: seq<T>, rest: seq<T>, x: T)
    requires |front| <= 1
    ensures Without(front + rest, x) == (if front != [] && front[0] != x then front else []) + Without(rest, x)
  {
    WithoutConcat(front, rest, x);
    if front != [] {
      assert front == [front[0]];
      WithoutOne(front[0], x);
    }
  }

  /** One call of `markEvaluated` on the bounded list. */
  function Mark<T(==)>(list: seq<T>, x: T): seq<T> {
    var moved := Without(list, x) + [x];
    if |moved| > CAP then moved[1..] else moved
  }

  lemma LastOfSuffix<T>(a: seq<T>, b: seq<T>)
    requires |b| >= CAP
    ensures LastOf(a + b) == b[|b| - CAP..]
  {
  }

  lemma MarkSuffix<T>(older: seq<T>, kept: seq<T>, x: T)
    requires |kept| == CAP || (|kept| < CAP && older == [])
    requires Distinct(kept)
    ensures Mark(kept, x) == LastOf(Without(older + kept, x) + [x])
  {
    hide Without;
    var moved := Without(kept, x) + [x];
    WithoutConcat(older, kept, x);
    assert Without(older + kept, x) + [x] == Without(older, x) + moved;
    if x in kept {
      var i :| 0 <= i < |kept| && kept[i] == x;
      WithoutAt(kept, i);
    } else {
      WithoutAbsent(kept, x);
    }
    if |kept| == CAP {
      LastOfSuffix(Without(older, x), moved);
    } else {
      WithoutAbsent(older, x);
      assert older + moved == moved;
    }
  }

  /** Marking on the bounded list is marking on the unbounded one, bounded afterwards. */
  lemma MarkCommutes<T>(full: seq<T>, x: T)
    requires Distinct(full)
    ensures Mark(LastOf(full), x) == LastOf(Without(full, x) + [x])
  {
    hide Without;
    var kept := LastOf(full);
    var older := full[..|full| - |kept|];
    assert full == older + kept;
    MarkSuffix(older, kept, x);
  }

  /** Marks with an empty id are ignored. */
  function Marked(h: seq<string>): seq<string> {
    if h == [] then []
    else
      var before := Marked(h[..|h| - 1]);
      if h[|h| - 1] == "" then before else Mark(before, h[|h| - 1])
  }

  function NonEmpty(h: seq<string>): seq<string> {
    if h == [] then []
    else NonEmpty(h[..|h| - 1]) + if h[|h| - 1] == "" then [] else [h[|h| - 1]]
  }

  /** After any history the list holds exactly the last thirty distinct ids, ordered by last occurrence. */
  lemma {:induction false} RecencyIsLastDistinct(h: seq<string>)
    ensures Marked(h) == LastOf(ByLastOccurrence(NonEmpty(h)))
  {
    if h != [] {
      var before, x := h[..|h| - 1], h[|h| - 1];
      RecencyIsLastDistinct(before);
      if x == "" {
        assert NonEmpty(h) == NonEmpty(before);
      } else {
        assert NonEmpty(h) == NonEmpty(before) + [x];
        ByLastMembers(NonEmpty(before));
        ByLastAppend(NonEmpty(before), x);
        MarkCommutes(ByLastOccurrence(NonEmpty(before)), x);
      }
    }
  }

  // ---------- batch differences ----------

  datatype BatchOp =
    | FeedBatch(ids: seq<string>)
    | SearchBatch(ids: seq<string>)
      /** Back to the home page: forgets the search baseline. */
    | EndSearch
      /** Session reset: forgets the search baseline, keeps the feed baseline. */
    | Reset

  datatype Baselines = Baselines(feed: set<string>, search: set<string>)

  function SetOf(ids: seq<string>): set<string> {
    set id | id in ids
  }

  function NewCount(baseline: set<string>, ids: seq<string>): nat {
    |SetOf(ids) - baseline|
  }

  function AfterOp(b: Baselines, op: BatchOp): Baselines {
    match op
    case FeedBatch(ids) => b.(feed := SetOf(ids))
    case SearchBatch(ids) => b.(search := SetOf(ids))
    case EndSearch => b.(search := {})
    case Reset => b.(search := {})
  }

  function After(ops: seq<BatchOp>): Baselines {
    if ops == [] then Baselines({}, {})
    else AfterOp(After(ops[..|ops| - 1]), ops[|ops| - 1])
  }

  /** Sum of the counts returned for feed batches. */
  function FeedTotal(ops: seq<BatchOp>): nat {
    if ops == [] then 0
    else
      var before, op := ops[..|ops| - 1], ops[|ops| - 1];
      FeedTotal(before) + if op.FeedBatch? then NewCount(After(before).feed, op.ids) else 0
  }

  function FeedSeen(ops: seq<BatchOp>): set<string> {
    if ops == [] then {}
    else
      var before, op := ops[..|ops| - 1], ops[|ops| - 1];
      FeedSeen(before) + if op.FeedBatch? then SetOf(op.ids) else {}
  }

  lemma UnionSize(a: set<string>, b: set<string>)
    ensures |a + b| == |a| + |b - a|
  {
    assert a + b == a + (b - a);
  }

  lemma SubsetSize(a: set<string>, b: set<string>)
    requires a <= b
    ensures |a| <= |b|
  {
    UnionSize(a, b);
    assert a + b == b;
  }

  /** Every distinct feed card is counted at least once. */
  lemma {:induction false} NoCardUncounted(ops: seq<BatchOp>)
    ensures After(ops).feed <= FeedSeen(ops)
    ensures |FeedSeen(ops)| <= FeedTotal(ops)
  {
    if ops != [] {
      var before, op := ops[..|ops| - 1], ops[|ops| - 1];
      NoCardUncounted(before);
      if op.FeedBatch? {
        UnionSize(FeedSeen(before), SetOf(op.ids));
        SubsetSize(SetOf(op.ids) - FeedSeen(before), SetOf(op.ids) - After(before).feed);
      }
    }
  }

  function FeedOnly(ops: seq<BatchOp>): seq<BatchOp> {
    if ops == [] then []
    else FeedOnly(ops[..|ops| - 1]) + if ops[|ops| - 1].FeedBatch? then [ops[|ops| - 1]] else []
  }

  /** Search batches, search endings and resets never change what the feed counts. */
  lemma {:induction false} SearchNeverTouchesFeed(ops: seq<BatchOp>)
    ensures FeedTotal(ops) == FeedTotal(FeedOnly(ops))
    ensures After(ops).feed == After(FeedOnly(ops)).feed
  {
    if ops != [] {
      var before, op := ops[..|ops| - 1], ops[|ops| - 1];
      SearchNeverTouchesFeed(before);
      if op.FeedBatch? {
        assert FeedOnly(ops) == FeedOnly(before) + [op];
        assert FeedOnly(ops)[..|FeedOnly(ops)| - 1] == FeedOnly(before);
      } else {
        assert FeedOnly(ops) == FeedOnly(before);
      }
    }
  }

  /** Sum of the counts returned for search batches. */
  function SearchTotal(ops: seq<BatchOp>): nat {
    if ops == [] then 0
    else
      var before, op := ops[..|ops| - 1], ops[|ops| - 1];
      SearchTotal(before) + if op.SearchBatch? then NewCount(After(before).search, op.ids) else 0
  }

  function WithoutFeed(ops: seq<BatchOp>): seq<BatchOp> {
    if ops == [] then []
    else WithoutFeed(ops[..|ops| - 1]) + if ops[|ops| - 1].FeedBatch? then [] else [ops[|ops| - 1]]
  }

  /** Feed batches never change what the search counts. */
  lemma {:induction false} FeedNeverTouchesSearch(ops: seq<BatchOp>)
    ensures SearchTotal(ops) == SearchTotal(WithoutFeed(ops))
    ensures After(ops).search == After(WithoutFeed(ops)).search
  {
    if ops != [] {
      var before, op := ops[..|ops| - 1], ops[|ops| - 1];
      FeedNeverTouchesSearch(before);
      if op.FeedBatch? {
        assert WithoutFeed(ops) == WithoutFeed(before);
      } else {
        assert WithoutFeed(ops) == WithoutFeed(before) + [op];
        assert WithoutFeed(ops)[..|WithoutFeed(ops)| - 1] == WithoutFeed(before);
      }
    }
  }

  /** The batch at position `j` is what the next search batch is compared with. */
  predicate IsSearchBaseline(ops: seq<BatchOp>, j: nat) {
    j < |ops| && ops[j].SearchBatch?
    && forall k :: j < k < |ops| ==> !ops[k].SearchBatch? && !ops[k].EndSearch? && !ops[k].Reset?
  }

  predicate IsFeedBaseline(ops: seq<BatchOp>, j: nat) {
    j < |ops| && ops[j].FeedBatch? && forall k :: j < k < |ops| ==> !ops[k].FeedBatch?
  }

  /**
   A batch is compared with the ids of the last one of its kind: for the feed over the whole connection, for the search
   since the search last ended or the session was reset; with none, everything is new.
   */
  lemma {:induction false} BaselineIsLastBatch(ops: seq<BatchOp>, id: string)
    ensures id in After(ops).search <==> exists j: nat :: IsSearchBaseline(ops, j) && id in ops[j].ids
    ensures id in After(ops).feed <==> exists j: nat :: IsFeedBaseline(ops, j) && id in ops[j].ids
  {
    if ops != [] {
      var init, n := ops[..|ops| - 1], |ops| - 1;
      var op := ops[n];
      BaselineIsLastBatch(init, id);
      assert forall k :: 0 <= k < n ==> init[k] == ops[k];
      assert IsSearchBaseline(ops, n) <==> op.SearchBatch?;
      assert IsFeedBaseline(ops, n) <==> op.FeedBatch?;
      if op.FeedBatch? {
        assert forall j: nat :: IsSearchBaseline(ops, j) <==> IsSearchBaseline(init, j);
      } else {
        assert forall j: nat :: IsFeedBaseline(ops, j) <==> IsFeedBaseline(init, j);
      }
    }
  }

  /** The number of ids that are new against a baseline: each once, however often the batch repeats it. */
  lemma NewCountCounts(baseline: set<string>, ids: seq<string>) returns (news: seq<string>)
    ensures |news| == NewCount(baseline, ids) && Distinct(news)
    ensures forall id :: id in news <==> id in ids && id !in baseline
  {
    news := Listed(SetOf(ids) - baseline);
  }

  lemma {:induction false} Listed(s: set<string>) returns (list: seq<string>)
    ensures |list| == |s| && Distinct(list) && forall id :: id in list <==> id in s
  {
    if s == {} {
      list := [];
    } else {
      var x :| x in s;
      var rest := Listed(s - {x});
      list := [x] + rest;
      assert forall j :: 0 < j < |list| ==> list[j] in rest;
    }
  }

  /** A batch with the same ids as the one before counts nothing; one with no id in common counts all of them. */
  lemma CountExtremes(b: Baselines, ids: seq<string>)
    ensures NewCount(AfterOp(b, FeedBatch(ids)).feed, ids) == 0
    ensures NewCount(b.feed, ids) == |SetOf(ids)| <==> SetOf(ids) !! b.feed
  {
    assert SetOf(ids) - SetOf(ids) == {};
    var s, f := SetOf(ids), b.feed;
    if |s - f| == |s| {
      UnionSize(s - f, s);
      assert (s - f) + s == s;
      assert s - (s - f) == {};
    }
    if s !! f {
      assert s - f == s;
    }
  }

  // ---------- the object ----------

  class CardMemory {
    var recentEvaluatedIds: seq<string>
    var lastFeedNoteIds: set<string>
    var lastSearchNoteIds: set<string>

    ghost function View(): Baselines
      reads this
    {
      Baselines(lastFeedNoteIds, lastSearchNoteIds)
    }

    constructor ()
      ensures recentEvaluatedIds == Marked([]) && View() == After([])
    {
      recentEvaluatedIds := [];
      lastFeedNoteIds := {};
      lastSearchNoteIds := {};
    }

    /** `history` is every id marked so far. */
    method MarkEvaluated(noteId: string, ghost history: seq<string>)
      requires recentEvaluatedIds == Marked(history)
      modifies this`recentEvaluatedIds
      ensures recentEvaluatedIds == Marked(history + [noteId])
      ensures recentEvaluatedIds == LastOf(ByLastOccurrence(NonEmpty(history + [noteId])))
    {
      RecencyIsLastDistinct(history);
      RecencyIsLastDistinct(history + [noteId]);
      assert (history + [noteId])[..|history|] == history;
      if noteId == "" {
        return;
      }
      ByLastMembers(NonEmpty(history));
      if noteId !in recentEvaluatedIds {
        WithoutAbsent(recentEvaluatedIds, noteId);
      }
      var i := IndexOf(recentEvaluatedIds, noteId);
      if i < |recentEvaluatedIds| {
        WithoutAt(recentEvaluatedIds, i);
        recentEvaluatedIds := recentEvaluatedIds[..i] + recentEvaluatedIds[i + 1..];
      }
      recentEvaluatedIds := recentEvaluatedIds + [noteId];
      if |recentEvaluatedIds| > CAP {
        recentEvaluatedIds := recentEvaluatedIds[1..];
      }
    }

    method FeedBatchNewCount(noteIds: seq<string>) returns (newCount: nat)
      modifies this`lastFeedNoteIds
      ensures newCount == NewCount(old(View()).feed, noteIds)
      ensures View() == AfterOp(old(View()), FeedBatch(noteIds))
    {
      newCount := CountOutside(SetOf(noteIds), lastFeedNoteIds);
      lastFeedNoteIds := SetOf(noteIds);
    }

    method SearchBatchNewCount(noteIds: seq<string>) returns (newCount: nat)
      modifies this`lastSearchNoteIds
      ensures newCount == NewCount(old(View()).search, noteIds)
      ensures View() == AfterOp(old(View()), SearchBatch(noteIds))
    {
      newCount := CountOutside(SetOf(noteIds), lastSearchNoteIds);
      lastSearchNoteIds := SetOf(noteIds);
    }

    /** The part of the reset that forgets the search baseline. */
    method ResetSearchCardsBrowsed()
      modifies this`lastSearchNoteIds
      ensures View() == AfterOp(old(View()), EndSearch)
    {
      lastSearchNoteIds := {};
    }
  }

  /** The first position of an element, or the length when there is none. */
  method IndexOf(xs: seq<string>, x: string) returns (i: nat)
    ensures i <= |xs| && x !in xs[..i] && (i < |xs| ==> xs[i] == x)
  {
    i := 0;
    while i < |xs| && xs[i] != x
      invariant i <= |xs| && x !in xs[..i]
    {
      i := i + 1;
    }
  }

  /** The counting loop of both batch methods: the size of a set difference, one element at a time. */
  method CountOutside(incoming: set<string>, baseline: set<string>) returns (n: nat)
    ensures n == |incoming - baseline|
  {
    n := 0;
    var rest := incoming;
    while rest != {}
      invariant rest <= incoming
      invariant n + |rest - baseline| == |incoming - baseline|
      decreases |rest|
    {
      var id :| id in rest;
      if id !in baseline {
        n := n + 1;
        assert rest - {id} - baseline == (rest - baseline) - {id};
      } else {
        assert rest - {id} - baseline == rest - baseline;
      }
      rest := rest - {id};
    }
  }
}
