/** What it means to pick elements out of a list in their order. */
module Selections {

  /** Entry `i` of `kept` is the element of `all` at position `at[i]`, and satisfies the test. */
  ghost predicate Placed<T>(all: seq<T>, kept: seq<T>, test: T -> bool, at: seq<nat>, i: nat) {
    i < |at| && i < |kept| && at[i] < |all| && kept[i] == all[at[i]] && test(kept[i])
  }

  /** `kept` lists the elements of `all` that satisfy the test, in their order. */
  ghost predicate Filters<T(!new)>(all: seq<T>, kept: seq<T>, test: T -> bool) {
    exists at: seq<nat> :: FiltersAt(all, kept, test, at)
  }

  ghost predicate FiltersAt<T(!new)>(all: seq<T>, kept: seq<T>, test: T -> bool, at: seq<nat>) {
    && |at| == |kept|
    && (forall i :: 0 <= i < |at| ==> Placed(all, kept, test, at, i))
    && (forall i, j :: 0 <= i < j < |at| ==> at[i] < at[j])
    && (forall k :: 0 <= k < |all| && test(all[k]) ==> k in at)
  }

  /** The positions once one more element is put in front. */
  function Shifted(at: seq<nat>, taken: bool): (r: seq<nat>)
    ensures |r| == |at| + if taken then 1 else 0
    ensures taken ==> r[0] == 0
    ensures forall i :: 0 <= i < |at| ==> r[if taken then i + 1 else i] == at[i] + 1
  {
    var later := seq(|at|, i requires 0 <= i < |at| => at[i] + 1);
    if taken then [0] + later else later
  }

  lemma ShiftedCovers<T(!new)>(x: T, all: seq<T>, kept: seq<T>, test: T -> bool, at: seq<nat>)
    requires FiltersAt(all, kept, test, at)
    ensures forall k :: 0 <= k < |[x] + all| && test(([x] + all)[k]) ==> k in Shifted(at, test(x))
  {
    var at' := Shifted(at, test(x));
    forall k | 0 <= k < |[x] + all| && test(([x] + all)[k]) ensures k in at' {
      if k > 0 {
        assert test(all[k - 1]);
        var i :| 0 <= i < |at| && at[i] == k - 1;
        assert at'[if test(x) then i + 1 else i] == k;
      }
    }
  }

  lemma ShiftedPlace<T>(x: T, all: seq<T>, kept: seq<T>, test: T -> bool, at: seq<nat>, i: nat)
    requires |at| == |kept| && i < |Shifted(at, test(x))|
    requires forall j :: 0 <= j < |at| ==> Placed(all, kept, test, at, j)
    ensures Placed([x] + all, if test(x) then [x] + kept else kept, test, Shifted(at, test(x)), i)
  {
    var at' := Shifted(at, test(x));
    if test(x) && i == 0 {
      assert at'[0] == 0;
    } else {
      var j := if test(x) then i - 1 else i;
      assert at'[if test(x) then j + 1 else j] == at[j] + 1;
      assert Placed(all, kept, test, at, j);
    }
  }

  lemma ShiftedAscends(at: seq<nat>, taken: bool)
    requires forall i, j :: 0 <= i < j < |at| ==> at[i] < at[j]
    ensures var r := Shifted(at, taken); forall i, j :: 0 <= i < j < |r| ==> r[i] < r[j]
  {
  }

  lemma FiltersCons<T(!new)>(x: T, all: seq<T>, kept: seq<T>, test: T -> bool)
    requires Filters(all, kept, test)
    ensures Filters([x] + all, if test(x) then [x] + kept else kept, test)
  {
    hide Shifted;
    var at: seq<nat> :| FiltersAt(all, kept, test, at);
    ShiftedCovers(x, all, kept, test, at);
    var at', all', kept' := Shifted(at, test(x)), [x] + all, if test(x) then [x] + kept else kept;
    forall i | 0 <= i < |at'| ensures Placed(all', kept', test, at', i) {
      ShiftedPlace(x, all, kept, test, at, i);
    }
    ShiftedAscends(at, test(x));
    assert FiltersAt([x] + all, if test(x) then [x] + kept else kept, test, Shifted(at, test(x)));
  }
}
