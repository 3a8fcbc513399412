/**
 Scrolling and searching: a scroller that counts screens asks for a search, and a search that is skipped at once comes
 back to the scroller inside the same call. The keyword to search is chosen from the account's own lists.
 */
module SearchLoop {
  import opened Wrappers
  import Text

  const SEARCH_SCROLL_THRESHOLD: nat := 5
  const DEFAULT_FEED_THRESHOLD: nat := 20

  datatype Page = Feed | SearchResults

  datatype Emission =
    | Refreshed(cardsBrowsed: int)
    | Scrolled(page: Page, count: nat)
    | SearchNeeded(page: Page, count: nat)
    | SearchSkipped(page: Page)

  datatype Counters = Counters(scrolls: nat, feedCards: int)

  /** `skipsAtOnce`: the platform has no search, or there is no keyword left to offer. */
  datatype Setup = Setup(feedThreshold: nat, refreshEnabled: bool, refreshAfter: int, skipsAtOnce: bool)

  /** The configured threshold: any positive number, rounded down. */
  function FeedThreshold(configured: Option<real>): nat {
    if configured.Some? && configured.value > 0.0 then configured.value.Floor else DEFAULT_FEED_THRESHOLD
  }

  function Threshold(page: Page, u: Setup): nat {
    if page == Feed then u.feedThreshold else SEARCH_SCROLL_THRESHOLD
  }

  predicate RefreshDue(page: Page, u: Setup, c: Counters) {
    page == Feed && u.refreshEnabled && c.feedCards >= u.refreshAfter
  }

  /** The synchronous cascade, followed for at most `depth` nested calls; None when it is not over by then. */
  function Cascade(page: Page, u: Setup, c: Counters, depth: nat): Option<(Counters, seq<Emission>)>
    decreases depth
  {
    if depth == 0 then None
    else if RefreshDue(page, u, c) then Some((Counters(0, 0), [Refreshed(c.feedCards)]))
    else
      var count := c.scrolls + 1;
      if count < Threshold(page, u) then Some((c.(scrolls := count), [Scrolled(page, count)]))
      else if !u.skipsAtOnce then Some((c.(scrolls := 0), [SearchNeeded(page, count)]))
      else
        var rest := Cascade(page, u, c.(scrolls := 0), depth - 1);
        if rest.None? then None
        else Some((rest.value.0, [SearchNeeded(page, count), SearchSkipped(page)] + rest.value.1))
  }

  predicate Ends(page: Page, u: Setup, c: Counters) {
    RefreshDue(page, u, c) || !u.skipsAtOnce || Threshold(page, u) >= 2
  }

  /** A cascade that can end does so with at most one nested call, which then only scrolls. */
  lemma EndsWithinOneNestedCall(page: Page, u: Setup, c: Counters)
    requires Ends(page, u, c)
    ensures var result := Cascade(page, u, c, 2);
            && result.Some?
            && (c.scrolls + 1 >= Threshold(page, u) && !RefreshDue(page, u, c) && u.skipsAtOnce ==>
                  result.value == (c.(scrolls := 1),
                                   [SearchNeeded(page, c.scrolls + 1), SearchSkipped(page), Scrolled(page, 1)]))
  {
    if c.scrolls + 1 >= Threshold(page, u) && !RefreshDue(page, u, c) && u.skipsAtOnce {
      var rest := Cascade(page, u, c.(scrolls := 0), 1);
      assert rest == Some((c.(scrolls := 1), [Scrolled(page, 1)]));
      assert [SearchNeeded(page, c.scrolls + 1), SearchSkipped(page)] + [Scrolled(page, 1)]
          == [SearchNeeded(page, c.scrolls + 1), SearchSkipped(page), Scrolled(page, 1)];
    }
  }

  lemma {:induction false} NeverEnds(page: Page, u: Setup, c: Counters, depth: nat)
    requires !Ends(page, u, c)
    ensures Cascade(page, u, c, depth).None?
    decreases depth
  {
    if depth > 0 {
      NeverEnds(page, u, c.(scrolls := 0), depth - 1);
    }
  }

  lemma {:induction false} DepthOnlyHelps(page: Page, u: Setup, c: Counters, depth: nat, more: nat)
    requires Cascade(page, u, c, depth).Some? && depth <= more
    ensures Cascade(page, u, c, more) == Cascade(page, u, c, depth)
    decreases depth
  {
    if depth > 0 && !RefreshDue(page, u, c) && c.scrolls + 1 >= Threshold(page, u) && u.skipsAtOnce {
      DepthOnlyHelps(page, u, c.(scrolls := 0), depth - 1, more - 1);
    }
  }

  /** The cascade ends at some depth exactly when a refresh is due, the search is not skipped at once, or the threshold is at least two. */
  lemma CascadeEndsExactly(page: Page, u: Setup, c: Counters)
    ensures (exists depth :: Cascade(page, u, c, depth).Some?) <==> Ends(page, u, c)
  {
    if Ends(page, u, c) {
      EndsWithinOneNestedCall(page, u, c);
    } else {
      forall depth ensures Cascade(page, u, c, depth).None? {
        NeverEnds(page, u, c, depth);
      }
    }
  }

  lemma NestedCallIsOneLevel(page: Page, u: Setup, c: Counters, before: seq<Emission>, after: seq<Emission>)
    requires c.scrolls == 0 && u.skipsAtOnce && Threshold(page, u) >= 2 && before <= after
    ensures Cascade(page, u, c, 2) == Cascade(page, u, c, 1)
    ensures after == before + after[|before|..]
  {
  }

  /**
   What a cascade that ends emits and leaves behind: a refresh when it is enabled and due on the feed; one more scroll
   below the threshold, which is five among search results; otherwise a call for a search with the count starting over,
   and, when that search is skipped at once, the skip and the first scroll of the new count.
   */
  lemma CascadeExactly(page: Page, u: Setup, c: Counters)
    requires Ends(page, u, c)
    ensures var count, threshold := c.scrolls + 1, if page == Feed then u.feedThreshold else 5;
            Cascade(page, u, c, 2)
            == Some(if page == Feed && u.refreshEnabled && c.feedCards >= u.refreshAfter then
                      (Counters(0, 0), [Refreshed(c.feedCards)])
                    else if count < threshold then (Counters(count, c.feedCards), [Scrolled(page, count)])
                    else if !u.skipsAtOnce then (Counters(0, c.feedCards), [SearchNeeded(page, count)])
                    else (Counters(1, c.feedCards), [SearchNeeded(page, count), SearchSkipped(page), Scrolled(page, 1)]))
  {
    EndsWithinOneNestedCall(page, u, c);
  }

  /** The threshold is the configured number rounded down when that is positive, and twenty otherwise. */
  lemma ThresholdExactly(configured: Option<real>)
    ensures if configured.Some? && configured.value > 0.0
            then FeedThreshold(configured) as real <= configured.value < FeedThreshold(configured) as real + 1.0
            else FeedThreshold(configured) == 20
  {
  }

  /** A configured value strictly between zero and two is accepted and gives a threshold below two. */
  lemma ThresholdBelowTwo(configured: Option<real>)
    ensures FeedThreshold(configured) < 2 <==> configured.Some? && 0.0 < configured.value < 2.0
  {
  }

  class Scrollers {
    const setup: Setup
    var scrolls: nat
    var feedCards: int
    ghost var emitted: seq<Emission>

    ghost function View(): Counters
      reads this
    {
      Counters(scrolls, feedCards)
    }

    constructor (setup: Setup)
      ensures this.setup == setup && View() == Counters(0, 0) && emitted == []
    {
      this.setup := setup;
      scrolls, feedCards, emitted := 0, 0, [];
    }

    ghost method Emit(e: Emission)
      modifies this`emitted
      ensures emitted == old(emitted) + [e]
    {
      emitted := emitted + [e];
    }

    /** The scroller's handler, with the evaluator's synchronous answer nested inside the emit. */
    method ScrollOrSearch(page: Page)
      requires Ends(page, setup, View())
      modifies this
      ensures old(emitted) <= emitted
      ensures Cascade(page, setup, old(View()), 2) == Some((View(), emitted[|old(emitted)|..]))
      decreases if scrolls + 1 >= Threshold(page, setup) then 1 else 0
    {
      EndsWithinOneNestedCall(page, setup, View());
      if page == Feed && setup.refreshEnabled && feedCards >= setup.refreshAfter {
        var cardsBrowsed := feedCards;
        feedCards := 0;
        scrolls := 0;
        Emit(Refreshed(cardsBrowsed));
        return;
      }
      scrolls := scrolls + 1;
      var count := scrolls;
      if count >= (if page == Feed then setup.feedThreshold else SEARCH_SCROLL_THRESHOLD) {
        scrolls := 0;
        Emit(SearchNeeded(page, count));
        if setup.skipsAtOnce {
          Emit(SearchSkipped(page));
          ghost var before := emitted;
          ScrollOrSearch(page);
          NestedCallIsOneLevel(page, setup, Counters(0, feedCards), before, emitted);
          assert emitted[|old(emitted)|..] == [SearchNeeded(page, count), SearchSkipped(page)] + emitted[|before|..];
        }
      } else {
        Emit(Scrolled(page, count));
      }
    }
  }

  // ---------- choosing a keyword ----------

  datatype Source = NewConcept | FromInterests

  /** What one evaluation reads when it starts. */
  datatype Lists = Lists(seeds: seq<string>, candidates: seq<string>, known: seq<string>)

  function Keys(lower: string -> string, words: seq<string>): set<string> {
    set i | 0 <= i < |words| :: lower(words[i])
  }

  /** The words whose key is not taken yet, each key once, in order. */
  function Untaken(lower: string -> string, words: seq<string>, taken: set<string>): seq<string> {
    if words == [] then []
    else if lower(words[0]) in taken then Untaken(lower, words[1..], taken)
    else [words[0]] + Untaken(lower, words[1..], taken + {lower(words[0])})
  }

  function Available(lower: string -> string, lists: Lists, searched: seq<string>): seq<string> {
    Untaken(lower, lists.seeds + lists.candidates, Keys(lower, searched + lists.known))
  }

  /** The words left are given words with untaken keys, no key twice, and no untaken key is missing. */
  lemma {:induction false} UntakenExactly(lower: string -> string, words: seq<string>, taken: set<string>)
    ensures var left := Untaken(lower, words, taken);
            && (forall w :: w in left ==> w in words && lower(w) !in taken)
            && KeysDiffer(lower, left)
            && Keys(lower, left) == Keys(lower, words) - taken
  {
    if words != [] {
      var key := lower(words[0]);
      assert words == [words[0]] + words[1..];
      if key in taken {
        UntakenExactly(lower, words[1..], taken);
        KeysOfCons(lower, words[0], words[1..]);
      } else {
        var rest := Untaken(lower, words[1..], taken + {key});
        UntakenExactly(lower, words[1..], taken + {key});
        KeysOfCons(lower, words[0], words[1..]);
        KeysOfCons(lower, words[0], rest);
        forall j | 1 <= j < |[words[0]] + rest| ensures lower(([words[0]] + rest)[j]) != key {
          assert rest[j - 1] in rest;
        }
      }
    }
  }

  lemma KeysOfCons(lower: string -> string, word: string, words: seq<string>)
    ensures Keys(lower, [word] + words) == {lower(word)} + Keys(lower, words)
  {
    var all := [word] + words;
    forall k | k in Keys(lower, words) ensures k in Keys(lower, all) {
      var i :| 0 <= i < |words| && k == lower(words[i]);
      assert all[i + 1] == words[i];
    }
    assert all[0] == word;
  }

  /** The source's loop over both lists, with its set of seen keys. */
  method ComputeAvailable(lower: string -> string, lists: Lists, searched: seq<string>) returns (available: seq<string>)
    ensures available == Available(lower, lists, searched)
  {
    var excluded := Keys(lower, searched + lists.known);
    var all := lists.seeds + lists.candidates;
    available := [];
    var seen := {};
    var i := 0;
    assert all[0..] == all && excluded + seen == excluded;
    while i < |all|
      invariant 0 <= i <= |all|
      invariant Untaken(lower, all, excluded) == available + Untaken(lower, all[i..], excluded + seen)
    {
      var key := lower(all[i]);
      assert all[i..][0] == all[i] && all[i..][1..] == all[i + 1..];
      assert excluded + (seen + {key}) == excluded + seen + {key};
      if !(key in excluded || key in seen) {
        seen := seen + {key};
        available := available + [all[i]];
      }
      i := i + 1;
    }
  }

  /** The first available word with the key the model asked for; an empty word counts as none. */
  function Canonical(lower: string -> string, available: seq<string>, keyword: string): Option<string> {
    if available == [] then None
    else if lower(available[0]) == lower(Text.Trim(keyword)) then
      if available[0] == "" then None else Some(available[0])
    else Canonical(lower, available[1..], keyword)
  }

  /** `since` counts the approvals already made when the evaluation started; `recorded` tells whether the search was noted. */
  datatype Approval = Approval(keyword: string, source: Source, lists: Lists, since: nat, recorded: bool)

  datatype Pending = Pending(available: seq<string>, lists: Lists, since: nat)

  datatype Evaluator = Evaluator(pending: map<nat, Pending>, searched: seq<string>, approvals: seq<Approval>)

  datatype Event =
    | Starts(evaluation: nat, lists: Lists)
    | Answers(evaluation: nat, keyword: Option<string>, recorded: bool)

  function Step(lower: string -> string, v: Evaluator, e: Event): Evaluator {
    match e
    case Starts(k, lists) =>
      var available := Available(lower, lists, v.searched);
      if k in v.pending || available == [] then v
      else v.(pending := v.pending[k := Pending(available, lists, |v.approvals|)])
    case Answers(k, keyword, recorded) =>
      if k !in v.pending then v
      else
        var p := v.pending[k];
        var v := v.(pending := v.pending - {k});
        var canonical := if keyword.None? then None else Canonical(lower, p.available, keyword.value);
        if canonical.None? then v
        else
          var word := canonical.value;
          var source := if lower(word) in Keys(lower, p.lists.candidates) then NewConcept else FromInterests;
          v.(approvals := v.approvals + [Approval(word, source, p.lists, p.since, recorded)],
             searched := if recorded then v.searched + [word] else v.searched)
  }

  const NothingYet := Evaluator(map[], [], [])

  function Run(lower: string -> string, es: seq<Event>): Evaluator {
    if es == [] then NothingYet else Step(lower, Run(lower, es[..|es| - 1]), es[|es| - 1])
  }

  lemma {:induction false} CanonicalIsAvailable(lower: string -> string, available: seq<string>, keyword: string)
    requires Canonical(lower, available, keyword).Some?
    ensures var word := Canonical(lower, available, keyword).value;
            word in available && word != "" && lower(word) == lower(Text.Trim(keyword))
  {
    hide Text.Trim;
    if lower(available[0]) != lower(Text.Trim(keyword)) {
      CanonicalIsAvailable(lower, available[1..], keyword);
    }
  }

  /** The word comes from the lists the evaluation read, is not known, and its source is told truly. */
  predicate FromLists(lower: string -> string, word: string, source: Source, lists: Lists) {
    && word != ""
    && (word in lists.seeds || word in lists.candidates)
    && lower(word) !in Keys(lower, lists.known)
    && (source == NewConcept <==> lower(word) in Keys(lower, lists.candidates))
  }

  /** No available word has the key of a search recorded before the evaluation started. */
  predicate Unsearched(lower: string -> string, approvals: seq<Approval>, since: nat, word: string) {
    since <= |approvals| && forall i :: 0 <= i < since && approvals[i].recorded ==> lower(approvals[i].keyword) != lower(word)
  }

  predicate KeysDiffer(lower: string -> string, words: seq<string>) {
    forall i, j :: 0 <= i < j < |words| ==> lower(words[i]) != lower(words[j])
  }

  ghost predicate PendingOk(lower: string -> string, v: Evaluator, p: Pending) {
    && p.since <= |v.approvals|
    && KeysDiffer(lower, p.available)
    && forall w :: w in p.available ==>
         && (w in p.lists.seeds || w in p.lists.candidates)
         && lower(w) !in Keys(lower, p.lists.known)
         && Unsearched(lower, v.approvals, p.since, w)
  }

  ghost predicate ApprovalOk(lower: string -> string, approvals: seq<Approval>, j: nat)
    requires j < |approvals|
  {
    var a := approvals[j];
    a.since <= j && FromLists(lower, a.keyword, a.source, a.lists) && Unsearched(lower, approvals, a.since, a.keyword)
  }

  ghost predicate Inv(lower: string -> string, v: Evaluator) {
    && (forall k :: k in v.pending ==> PendingOk(lower, v, v.pending[k]))
    && (forall j :: 0 <= j < |v.approvals| ==> ApprovalOk(lower, v.approvals, j))
    && (forall j :: 0 <= j < |v.approvals| && v.approvals[j].recorded ==> v.approvals[j].keyword in v.searched)
  }

  lemma AvailableIsOk(lower: string -> string, v: Evaluator, lists: Lists)
    requires Inv(lower, v)
    ensures PendingOk(lower, v, Pending(Available(lower, lists, v.searched), lists, |v.approvals|))
  {
    var taken := Keys(lower, v.searched + lists.known);
    UntakenExactly(lower, lists.seeds + lists.candidates, taken);
    var available := Available(lower, lists, v.searched);
    hide Untaken, ApprovalOk;
    assert forall k :: k in Keys(lower, lists.known) ==> k in taken by {
      forall k | k in Keys(lower, lists.known) ensures k in taken {
        var i :| 0 <= i < |lists.known| && k == lower(lists.known[i]);
        assert (v.searched + lists.known)[|v.searched| + i] == lists.known[i];
      }
    }
    forall w | w in available ensures Unsearched(lower, v.approvals, |v.approvals|, w) {
      forall i | 0 <= i < |v.approvals| && v.approvals[i].recorded ensures lower(v.approvals[i].keyword) != lower(w) {
        var m :| 0 <= m < |v.searched| && v.searched[m] == v.approvals[i].keyword;
        assert (v.searched + lists.known)[m] == v.approvals[i].keyword;
      }
    }
  }

  lemma AnswerKeepsInv(lower: string -> string, v: Evaluator, k: nat, keyword: string, recorded: bool)
    requires Inv(lower, v) && k in v.pending && Canonical(lower, v.pending[k].available, keyword).Some?
    ensures Inv(lower, Step(lower, v, Answers(k, Some(keyword), recorded)))
  {
    hide Text.Trim, Canonical;
    var p := v.pending[k];
    var word := Canonical(lower, p.available, keyword).value;
    CanonicalIsAvailable(lower, p.available, keyword);
    var v' := Step(lower, v, Answers(k, Some(keyword), recorded));
    hide Keys;
    forall q | q in v'.pending ensures PendingOk(lower, v', v'.pending[q]) {
      assert PendingOk(lower, v, v.pending[q]);
    }
    forall j | 0 <= j < |v'.approvals| ensures ApprovalOk(lower, v'.approvals, j) {
      if j < |v.approvals| {
        assert ApprovalOk(lower, v.approvals, j);
        assert v'.approvals[j] == v.approvals[j];
      }
    }
  }

  lemma StepKeepsInv(lower: string -> string, v: Evaluator, e: Event)
    requires Inv(lower, v)
    ensures Inv(lower, Step(lower, v, e))
  {
    hide Available, Canonical, PendingOk, ApprovalOk;
    match e
    case Starts(k, lists) => AvailableIsOk(lower, v, lists);
      StartKeepsInv(lower, v, k, lists);
    case Answers(k, keyword, recorded) =>
      if k in v.pending {
        if keyword.Some? && Canonical(lower, v.pending[k].available, keyword.value).Some? {
          AnswerKeepsInv(lower, v, k, keyword.value, recorded);
        } else {
          FewerPendingKeepInv(lower, v, k);
        }
      }
  }

  lemma StartKeepsInv(lower: string -> string, v: Evaluator, k: nat, lists: Lists)
    requires Inv(lower, v)
    ensures Inv(lower, Step(lower, v, Starts(k, lists)))
  {
    AvailableIsOk(lower, v, lists);
    hide Available, ApprovalOk, Unsearched, Keys;
  }

  lemma FewerPendingKeepInv(lower: string -> string, v: Evaluator, k: nat)
    requires Inv(lower, v)
    ensures Inv(lower, v.(pending := v.pending - {k}))
  {
    hide ApprovalOk, Unsearched, Keys;
  }

  lemma {:induction false} Reachable(lower: string -> string, es: seq<Event>)
    ensures Inv(lower, Run(lower, es))
  {
    if es != [] {
      Reachable(lower, es[..|es| - 1]);
      hide Inv, Step;
      StepKeepsInv(lower, Run(lower, es[..|es| - 1]), es[|es| - 1]);
    }
  }

  /** Every approved keyword lies in the seeds or candidates its evaluation read, is none of the known words, and is not empty. */
  lemma ApprovedIsOffered(lower: string -> string, es: seq<Event>, j: nat)
    requires j < |Run(lower, es).approvals|
    ensures var a := Run(lower, es).approvals[j]; FromLists(lower, a.keyword, a.source, a.lists)
  {
    Reachable(lower, es);
    hide Run, FromLists, Unsearched;
    assert ApprovalOk(lower, Run(lower, es).approvals, j);
  }

  /** An approval never repeats a search, whatever its case, that was recorded before its evaluation started. */
  lemma NoRepeatedSearch(lower: string -> string, es: seq<Event>, i: nat, j: nat)
    requires j < |Run(lower, es).approvals| && i < Run(lower, es).approvals[j].since
    requires i < |Run(lower, es).approvals| && Run(lower, es).approvals[i].recorded
    ensures lower(Run(lower, es).approvals[i].keyword) != lower(Run(lower, es).approvals[j].keyword)
  {
    Reachable(lower, es);
    hide Run, FromLists;
    assert ApprovalOk(lower, Run(lower, es).approvals, j);
  }

  // ---------- what an evaluation is offered, and what its answer does ----------

  /** The word with this key comes at position `i` first. */
  predicate FirstWithKey(lower: string -> string, words: seq<string>, i: nat) {
    i < |words| && forall j :: 0 <= j < i ==> lower(words[j]) != lower(words[i])
  }

  lemma {:induction false} UntakenIsFirst(lower: string -> string, words: seq<string>, taken: set<string>, w: string)
    requires w in Untaken(lower, words, taken)
    ensures exists i :: 0 <= i < |words| && words[i] == w && FirstWithKey(lower, words, i)
  {
    var key := lower(words[0]);
    if key !in taken && w == words[0] {
      assert FirstWithKey(lower, words, 0);
    } else {
      var taken' := if key in taken then taken else taken + {key};
      UntakenIsFirst(lower, words[1..], taken', w);
      UntakenExactly(lower, words[1..], taken');
      var i :| 0 <= i < |words[1..]| && words[1..][i] == w && FirstWithKey(lower, words[1..], i);
      forall j | 0 <= j < i + 1 ensures lower(words[j]) != lower(w) {
        if j > 0 {
          assert words[1..][j - 1] == words[j];
        } else {
          KeyIsUntaken(lower, words, taken, w);
        }
      }
      assert FirstWithKey(lower, words, i + 1);
    }
  }

  /** A word left after the first one does not have the first one's key. */
  lemma KeyIsUntaken(lower: string -> string, words: seq<string>, taken: set<string>, w: string)
    requires words != [] && w in Untaken(lower, words, taken) && (lower(words[0]) in taken || w != words[0])
    ensures lower(w) != lower(words[0])
  {
    UntakenExactly(lower, words, taken);
    if lower(words[0]) !in taken {
      UntakenExactly(lower, words[1..], taken + {lower(words[0])});
    }
  }

  /** The keywords of the recorded approvals, in order. */
  function Recorded(approvals: seq<Approval>): seq<string> {
    if approvals == [] then []
    else
      var last := approvals[|approvals| - 1];
      Recorded(approvals[..|approvals| - 1]) + if last.recorded then [last.keyword] else []
  }

  /** The searches known to an evaluation are exactly the recorded approvals. */
  lemma {:induction false} SearchedIsRecorded(lower: string -> string, es: seq<Event>)
    ensures Run(lower, es).searched == Recorded(Run(lower, es).approvals)
  {
    hide Available, Canonical, Keys;
    if es != [] {
      SearchedIsRecorded(lower, es[..|es| - 1]);
      StepRecords(lower, Run(lower, es[..|es| - 1]), es[|es| - 1]);
    }
  }

  lemma StepRecords(lower: string -> string, v: Evaluator, e: Event)
    requires v.searched == Recorded(v.approvals)
    ensures Step(lower, v, e).searched == Recorded(Step(lower, v, e).approvals)
  {
    hide Available, Canonical, Keys;
    var v' := Step(lower, v, e);
    if v'.approvals != v.approvals {
      assert v'.approvals[..|v.approvals|] == v.approvals;
    }
  }

  /** A seed or candidate whose key is neither that of a known word nor that of a recorded search. */
  predicate Left(lower: string -> string, v: Evaluator, lists: Lists, w: string) {
    && (w in lists.seeds || w in lists.candidates)
    && (forall i :: 0 <= i < |lists.known| ==> lower(lists.known[i]) != lower(w))
    && (forall i :: 0 <= i < |v.searched| ==> lower(v.searched[i]) != lower(w))
  }

  lemma TakenExactly(lower: string -> string, v: Evaluator, lists: Lists, w: string)
    requires w in lists.seeds || w in lists.candidates
    ensures lower(w) in Keys(lower, v.searched + lists.known) <==> !Left(lower, v, lists, w)
  {
    var words := v.searched + lists.known;
    if !Left(lower, v, lists, w) {
      if i :| 0 <= i < |lists.known| && lower(lists.known[i]) == lower(w) {
        assert words[|v.searched| + i] == lists.known[i];
      } else {
        var i :| 0 <= i < |v.searched| && lower(v.searched[i]) == lower(w);
        assert words[i] == v.searched[i];
      }
    }
  }

  /**
   An evaluation goes ahead exactly when a seed or candidate is left; it is then offered every key that is left, by the
   first word that has it, seeds before candidates, and no key twice.
   */
  lemma OfferedExactly(lower: string -> string, v: Evaluator, k: nat, lists: Lists)
    requires k !in v.pending
    ensures var v' := Step(lower, v, Starts(k, lists));
            && (k in v'.pending <==> exists w :: Left(lower, v, lists, w))
            && v'.approvals == v.approvals && v'.searched == v.searched && v'.pending - {k} == v.pending
            && (k in v'.pending ==>
                  var p := v'.pending[k];
                  && p.lists == lists && p.since == |v.approvals| && KeysDiffer(lower, p.available)
                  && (forall w :: w in p.available ==>
                        Left(lower, v, lists, w)
                        && exists i :: 0 <= i < |lists.seeds + lists.candidates|
                                       && (lists.seeds + lists.candidates)[i] == w
                                       && FirstWithKey(lower, lists.seeds + lists.candidates, i))
                  && (forall w :: Left(lower, v, lists, w) ==> lower(w) in Keys(lower, p.available)))
  {
    var words, taken := lists.seeds + lists.candidates, Keys(lower, v.searched + lists.known);
    var available := Untaken(lower, words, taken);
    UntakenExactly(lower, words, taken);
    hide Untaken, FirstWithKey, KeysDiffer;
    forall w | w in available
      ensures Left(lower, v, lists, w)
      ensures exists i :: 0 <= i < |words| && words[i] == w && FirstWithKey(lower, words, i)
    {
      UntakenIsFirst(lower, words, taken, w);
      TakenExactly(lower, v, lists, w);
    }
    forall w | Left(lower, v, lists, w) ensures lower(w) in Keys(lower, available) {
      TakenExactly(lower, v, lists, w);
      assert w in words;
      KeyOfMember(lower, words, w);
    }
    if available != [] {
      assert available[0] in available;
    }
    hide Left, Keys;
  }

  lemma KeyOfMember(lower: string -> string, words: seq<string>, w: string)
    requires w in words
    ensures lower(w) in Keys(lower, words)
  {
    var i :| 0 <= i < |words| && words[i] == w;
  }

  /**
   An answer to a pending evaluation approves the word offered under the key of the trimmed keyword, when there is one
   and it is not empty, and otherwise nothing; either way the evaluation is over.
   */
  lemma AnswerExactly(lower: string -> string, es: seq<Event>, k: nat, keyword: string, recorded: bool)
    requires k in Run(lower, es).pending
    ensures var v := Run(lower, es);
            var v', p, key := Step(lower, v, Answers(k, Some(keyword), recorded)), v.pending[k], lower(Text.Trim(keyword));
            && v'.pending == v.pending - {k}
            && (forall w :: w in p.available && w != "" && lower(w) == key ==>
                  && v'.approvals == v.approvals
                       + [Approval(w, if lower(w) in Keys(lower, p.lists.candidates) then NewConcept else FromInterests,
                                   p.lists, p.since, recorded)]
                  && v'.searched == if recorded then v.searched + [w] else v.searched)
            && (!Offers(lower, p.available, key) ==> v'.approvals == v.approvals && v'.searched == v.searched)
    ensures Step(lower, Run(lower, es), Answers(k, None, recorded))
            == Run(lower, es).(pending := Run(lower, es).pending - {k})
  {
    Reachable(lower, es);
    hide Run, Text.Trim, Canonical, ApprovalOk, Keys;
    var v := Run(lower, es);
    var p := v.pending[k];
    assert PendingOk(lower, v, p);
    forall w | w in p.available && w != "" && lower(w) == lower(Text.Trim(keyword))
      ensures Canonical(lower, p.available, keyword) == Some(w)
    {
      CanonicalFinds(lower, p.available, keyword, w);
    }
    if Canonical(lower, p.available, keyword).Some? {
      CanonicalIsAvailable(lower, p.available, keyword);
    }
  }

  // ---------- when a keyword can repeat ----------

  /** A word with this key is among those offered; an empty word is never approved. */
  predicate Offers(lower: string -> string, available: seq<string>, key: string) {
    exists w :: w in available && w != "" && lower(w) == key
  }

  /** Answering evaluation `k` with this keyword approves a word with the key. */
  predicate Approves(lower: string -> string, v: Evaluator, k: nat, keyword: string, key: string) {
    var v' := Step(lower, v, Answers(k, Some(keyword), true));
    |v'.approvals| == |v.approvals| + 1 && lower(v'.approvals[|v.approvals|].keyword) == key
  }

  lemma {:induction false} CanonicalFinds(lower: string -> string, available: seq<string>, keyword: string, word: string)
    requires KeysDiffer(lower, available) && word in available && word != "" && lower(word) == lower(Text.Trim(keyword))
    ensures Canonical(lower, available, keyword) == Some(word)
  {
    hide Text.Trim;
    if lower(available[0]) == lower(Text.Trim(keyword)) {
      assert available[0] == word;
    } else {
      assert word in available[1..];
      CanonicalFinds(lower, available[1..], keyword, word);
    }
  }

  /** The answer that an approval was given for. */
  lemma {:induction false} ApprovalWasAnswered(lower: string -> string, es: seq<Event>, i: nat) returns (keyword: string)
    requires i < |Run(lower, es).approvals|
    ensures lower(Text.Trim(keyword)) == lower(Run(lower, es).approvals[i].keyword)
  {
    hide Text.Trim, Canonical, Available;
    var init, e := es[..|es| - 1], es[|es| - 1];
    var v := Run(lower, init);
    if i < |v.approvals| {
      keyword := ApprovalWasAnswered(lower, init, i);
    } else {
      CanonicalIsAvailable(lower, v.pending[e.evaluation].available, e.keyword.value);
      keyword := e.keyword.value;
    }
  }

  /**
   In every reachable state, some answer to a pending evaluation repeats the key of an approval already made exactly when
   the evaluation was offered a word with that key. It can only have been offered one if the approval was made after it
   started, or was left unrecorded.
   */
  lemma RepeatExactly(lower: string -> string, es: seq<Event>, k: nat, i: nat)
    requires k in Run(lower, es).pending && i < |Run(lower, es).approvals|
    ensures var v := Run(lower, es);
            var key, p := lower(v.approvals[i].keyword), v.pending[k];
            && ((exists keyword :: Approves(lower, v, k, keyword, key)) <==> Offers(lower, p.available, key))
            && (Offers(lower, p.available, key) ==> i >= p.since || !v.approvals[i].recorded)
  {
    var answer := ApprovalWasAnswered(lower, es, i);
    Reachable(lower, es);
    hide Run, Text.Trim, Canonical, ApprovalOk, Keys;
    var v := Run(lower, es);
    var key, p := lower(v.approvals[i].keyword), v.pending[k];
    assert PendingOk(lower, v, p);
    if Offers(lower, p.available, key) {
      var w :| w in p.available && w != "" && lower(w) == key;
      CanonicalFinds(lower, p.available, answer, w);
      assert Approves(lower, v, k, answer, key);
    }
    forall keyword | Approves(lower, v, k, keyword, key) ensures Offers(lower, p.available, key) {
      CanonicalIsAvailable(lower, p.available, keyword);
    }
  }

  /** Each evaluation is answered before the next one starts; one that skips at once is answered with nothing. */
  predicate EachAnsweredFirst(es: seq<Event>) {
    forall i, j :: 0 <= i < j < |es| && es[i].Starts? && es[j].Starts? ==>
      exists m :: i < m < j && AnswerTo(es[m], es[i].evaluation)
  }

  predicate AnswerTo(e: Event, evaluation: nat) {
    e.Answers? && e.evaluation == evaluation
  }

  predicate AllRecorded(es: seq<Event>) {
    forall i :: 0 <= i < |es| && es[i].Answers? && es[i].keyword.Some? ==> es[i].recorded
  }

  /** A pending evaluation has started and has not been answered since. */
  lemma {:induction false} PendingIsUnanswered(lower: string -> string, es: seq<Event>, k: nat) returns (i: nat)
    requires k in Run(lower, es).pending
    ensures i < |es| && es[i].Starts? && es[i].evaluation == k
    ensures forall m :: i < m < |es| ==> !AnswerTo(es[m], k)
  {
    hide Available, Canonical;
    var init, e := es[..|es| - 1], es[|es| - 1];
    if k in Run(lower, init).pending {
      i := PendingIsUnanswered(lower, init, k);
      assert forall m :: i < m < |init| ==> es[m] == init[m];
    } else {
      i := |es| - 1;
    }
  }

  /** Every approval was made by the only evaluation pending, and recorded. */
  predicate InTurn(v: Evaluator) {
    && (forall j, k :: j in v.pending && k in v.pending ==> j == k)
    && (forall k :: k in v.pending ==> v.pending[k].since == |v.approvals|)
    && (forall j :: 0 <= j < |v.approvals| ==> v.approvals[j].since == j && v.approvals[j].recorded)
  }

  lemma StepStaysInTurn(lower: string -> string, v: Evaluator, e: Event)
    requires InTurn(v) && (e.Starts? ==> v.pending == map[]) && (e.Answers? && e.keyword.Some? ==> e.recorded)
    ensures InTurn(Step(lower, v, e))
  {
    hide Available, Canonical, Keys;
  }

  lemma NothingPending(lower: string -> string, es: seq<Event>)
    requires EachAnsweredFirst(es) && es != [] && es[|es| - 1].Starts?
    ensures Run(lower, es[..|es| - 1]).pending == map[]
  {
    var init := es[..|es| - 1];
    forall i | 0 <= i < |init| && init[i].Starts? ensures exists m :: i < m < |init| && AnswerTo(init[m], init[i].evaluation) {
      var m :| i < m < |es| - 1 && AnswerTo(es[m], es[i].evaluation);
      assert AnswerTo(init[m], init[i].evaluation);
    }
    if k :| k in Run(lower, init).pending {
      var i := PendingIsUnanswered(lower, init, k);
    }
  }

  lemma {:induction false} RunStaysInTurn(lower: string -> string, es: seq<Event>)
    requires EachAnsweredFirst(es) && AllRecorded(es)
    ensures InTurn(Run(lower, es))
  {
    if es != [] {
      var init, e := es[..|es| - 1], es[|es| - 1];
      assert EachAnsweredFirst(init) by {
        forall i, j | 0 <= i < j < |init| && init[i].Starts? && init[j].Starts?
          ensures exists m :: i < m < j && AnswerTo(init[m], init[i].evaluation)
        {
          var m :| i < m < j && AnswerTo(es[m], es[i].evaluation);
          assert AnswerTo(init[m], init[i].evaluation);
        }
      }
      RunStaysInTurn(lower, init);
      if e.Starts? {
        NothingPending(lower, es);
      }
      hide Step, InTurn;
      StepStaysInTurn(lower, Run(lower, init), e);
    }
  }

  /** When each evaluation is answered before the next starts and every approval is recorded, no keyword repeats in any case. */
  lemma ApprovedPairwiseDistinct(lower: string -> string, es: seq<Event>, i: nat, j: nat)
    requires EachAnsweredFirst(es) && AllRecorded(es) && i < j < |Run(lower, es).approvals|
    ensures lower(Run(lower, es).approvals[i].keyword) != lower(Run(lower, es).approvals[j].keyword)
  {
    RunStaysInTurn(lower, es);
    hide Run;
    NoRepeatedSearch(lower, es, i, j);
  }

  /** With overlap they need not be: two evaluations that start together can approve the same word. */
  lemma OverlapRepeats(lower: string -> string, word: string)
    requires word != "" && Text.IsTrimmed(word)
    ensures var lists := Lists([word], [], []);
            var es := [Starts(0, lists), Starts(1, lists), Answers(0, Some(word), true), Answers(1, Some(word), true)];
            var approvals := Run(lower, es).approvals;
            |approvals| == 2 && approvals[0].keyword == approvals[1].keyword == word
  {
    hide Text.Trim;
    Text.TrimIsTrimmed(word);
    var lists := Lists([word], [], []);
    var es := [Starts(0, lists), Starts(1, lists), Answers(0, Some(word), true), Answers(1, Some(word), true)];
    assert es[..3][..2][..1][..0] == [];
    assert Available(lower, lists, []) == [word] by {
      var taken := Keys(lower, [] + lists.known);
      assert taken == {};
      assert lists.seeds + lists.candidates == [word];
      assert [word][1..] == [];
      assert Untaken(lower, [word][1..], taken + {lower(word)}) == [];
      assert Untaken(lower, [word], taken) == [word];
    }
    var v1 := Step(lower, NothingYet, es[0]);
    assert Run(lower, es[..3][..2][..1]) == v1;
    var v2 := Step(lower, v1, es[1]);
    assert Run(lower, es[..3][..2]) == v2;
    assert Canonical(lower, [word], word) == Some(word);
    var v3 := Step(lower, v2, es[2]);
    assert Run(lower, es[..3]) == v3;
    var v4 := Step(lower, v3, es[3]);
    assert |v4.approvals| == 2;
  }
}
