/**
 The dimensions of a recorded model call and the text key under which its usage is merged: when the key tells two
 calls apart, and when it does not.
 */
module UsageKeys {
  import opened Wrappers
  import Text

  const UNTAGGED_ROLE := "untagged"
  const UNKNOWN_PROVIDER := "unknown"
  const UNKNOWN_MODEL := "unknown"

  /** A number as the source receives it. */
  datatype Quantity = Missing | NotFinite | Finite(value: real)

  /** One finished model call; `bucketStart` is the bucket of the moment it happened. */
  datatype Call = Call(
    bucketStart: int,
    accountId: Option<string>,
    role: Option<string>,
    provider: Option<string>,
    model: string,
    ok: bool,
    promptTokens: Quantity,
    completionTokens: Quantity,
    totalTokens: Quantity)

  datatype Dims = Dims(bucketStart: int, account: string, role: string, provider: string, model: string)

  datatype Usage = Usage(prompt: nat, completion: nat, total: nat, calls: nat, okCalls: nat) {
    function Plus(u: Usage): Usage {
      Usage(prompt + u.prompt, completion + u.completion, total + u.total, calls + u.calls, okCalls + u.okCalls)
    }
  }

  const Nothing := Usage(0, 0, 0, 0, 0)

  datatype Row = Row(dims: Dims, usage: Usage)

  /** The whole tokens of a number: rounded down, and none of what is missing, not finite or negative. */
  function NonNegative(q: Quantity): (n: nat)
    ensures q.Finite? && q.value >= 1.0 ==> n as real <= q.value < n as real + 1.0
    ensures !q.Finite? || q.value < 1.0 ==> n == 0
  {
    if q.Finite? && q.value > 0.0 then q.value.Floor else 0
  }

  function Dimension(value: Option<string>, fallback: string): string {
    var trimmed := Text.Trim(value.GetOr(""));
    if trimmed != "" then trimmed else fallback
  }

  function Account(c: Call): string {
    Text.Trim(c.accountId.GetOr(""))
  }

  /** A call without an account is dropped. */
  predicate HasAccount(c: Call) {
    Account(c) != ""
  }

  function DimsOf(c: Call): Dims {
    Dims(c.bucketStart, Account(c), Dimension(c.role, UNTAGGED_ROLE), Dimension(c.provider, UNKNOWN_PROVIDER),
         Dimension(Some(c.model), UNKNOWN_MODEL))
  }

  function UsageOf(c: Call): Usage {
    Usage(NonNegative(c.promptTokens), NonNegative(c.completionTokens), NonNegative(c.totalTokens), 1,
          if c.ok then 1 else 0)
  }

  function Parts(d: Dims): seq<string> {
    [Text.Decimal(d.bucketStart), d.account, d.role, d.provider, d.model]
  }

  /** The text the buffer looks a row up by. */
  function Key(d: Dims): string {
    Text.Join(Parts(d), '|')
  }

  // ---------- the key ----------

  predicate BarFree(d: Dims) {
    '|' !in d.account && '|' !in d.role && '|' !in d.provider && '|' !in d.model
  }

  lemma KeySplits(d: Dims)
    requires BarFree(d)
    ensures Text.Split(Key(d), '|') == Parts(d)
  {
    Text.DecimalReads(d.bucketStart);
    Text.SplitJoin(Parts(d), '|');
  }

  function Barred(left: string, right: string): string {
    left + ['|'] + right
  }

  /** The key with its parts written out. */
  lemma KeyText(d: Dims)
    ensures Key(d)
            == Barred(Text.Decimal(d.bucketStart), Barred(d.account, Barred(d.role, Barred(d.provider, d.model))))
  {
    var p := Parts(d);
    assert p[1..][1..][1..][1..] == [d.model];
    assert Text.Join(p[1..][1..][1..], '|') == Barred(d.provider, d.model);
    assert Text.Join(p[1..][1..], '|') == Barred(d.role, Barred(d.provider, d.model));
    assert Text.Join(p[1..], '|') == Barred(d.account, Barred(d.role, Barred(d.provider, d.model)));
  }

  lemma BarredCounts(left: string, right: string)
    ensures multiset(Barred(left, right))['|'] == multiset(left)['|'] + 1 + multiset(right)['|']
  {
    assert multiset(Barred(left, right)) == multiset(left) + multiset{'|'} + multiset(right);
  }

  lemma KeyBars(d: Dims)
    ensures multiset(Key(d))['|']
            == 4 + multiset(d.account)['|'] + multiset(d.role)['|'] + multiset(d.provider)['|'] + multiset(d.model)['|']
  {
    KeyText(d);
    var number := Text.Decimal(d.bucketStart);
    Text.DecimalReads(d.bucketStart);
    assert '|' !in number;
    BarredCounts(d.provider, d.model);
    BarredCounts(d.role, Barred(d.provider, d.model));
    BarredCounts(d.account, Barred(d.role, Barred(d.provider, d.model)));
    BarredCounts(number, Barred(d.account, Barred(d.role, Barred(d.provider, d.model))));
  }

  lemma BarredAssociates(a: string, b: string, c: string)
    ensures Barred(Barred(a, b), c) == Barred(a, Barred(b, c))
  {
  }

  lemma AtBar(s: string) returns (left: string, right: string)
    requires '|' in s
    ensures s == Barred(left, right)
  {
    var i :| 0 <= i < |s| && s[i] == '|';
    left, right := s[..i], s[i + 1..];
  }

  /** A dimension holding a bar can be read as belonging to its neighbour: other dimensions share the key. */
  lemma BarsCollide(d: Dims) returns (e: Dims)
    requires !BarFree(d)
    ensures e != d && Key(e) == Key(d)
  {
    hide Barred;
    if '|' in d.account {
      var x, y := AtBar(d.account);
      e := d.(account := x, role := Barred(y, d.role));
      BarredAssociates(x, y, Barred(d.role, Barred(d.provider, d.model)));
      BarredAssociates(y, d.role, Barred(d.provider, d.model));
      ShorterPart(x, y);
    } else if '|' in d.role {
      var x, y := AtBar(d.role);
      e := d.(account := Barred(d.account, x), role := y);
      BarredAssociates(d.account, x, Barred(y, Barred(d.provider, d.model)));
      BarredAssociates(x, y, Barred(d.provider, d.model));
      ShorterPart(x, y);
    } else if '|' in d.provider {
      var x, y := AtBar(d.provider);
      e := d.(role := Barred(d.role, x), provider := y);
      BarredAssociates(d.role, x, Barred(y, d.model));
      BarredAssociates(x, y, d.model);
      ShorterPart(x, y);
    } else {
      var x, y := AtBar(d.model);
      e := d.(provider := Barred(d.provider, x), model := y);
      BarredAssociates(d.provider, x, y);
      ShorterPart(x, y);
    }
    KeyText(d);
    KeyText(e);
  }

  lemma ShorterPart(left: string, right: string)
    ensures Barred(left, right) != left && Barred(left, right) != right
  {
    assert |Barred(left, right)| == |left| + 1 + |right|;
  }

  ghost predicate OwnsItsKey(d: Dims) {
    forall e :: Key(e) == Key(d) ==> e == d
  }

  /** No other dimensions share a key exactly when account, role, provider and model hold no bar. */
  lemma KeyIsExactWithoutBars(d: Dims)
    ensures OwnsItsKey(d) <==> BarFree(d)
  {
    if BarFree(d) {
      forall e | Key(e) == Key(d) ensures e == d {
        KeyIsExact(d, e);
      }
    } else {
      var e := BarsCollide(d);
    }
  }

  lemma SharedKeyIsBarFree(d: Dims, e: Dims)
    requires BarFree(d) && Key(d) == Key(e)
    ensures BarFree(e)
  {
    KeyBars(d);
    KeyBars(e);
    assert multiset(d.account)['|'] == 0 && multiset(d.role)['|'] == 0;
    assert multiset(d.provider)['|'] == 0 && multiset(d.model)['|'] == 0;
  }

  lemma KeyIsExact(d: Dims, e: Dims)
    requires BarFree(d) && Key(d) == Key(e)
    ensures d == e
  {
    SharedKeyIsBarFree(d, e);
    KeySplits(d);
    KeySplits(e);
    var p, q := Parts(d), Parts(e);
    assert p[0] == q[0] && p[1] == q[1] && p[2] == q[2] && p[3] == q[3] && p[4] == q[4];
    Text.DecimalReads(d.bucketStart);
    Text.DecimalReads(e.bucketStart);
  }

  predicate Given(s: string) {
    s != "" && Text.IsTrimmed(s)
  }

  /** Trimmed dimensions are taken over as they are; blank ones get their placeholders. */
  lemma DimensionsAsGiven(c: Call, account: string, role: string, provider: string)
    requires Given(account) && Given(role) && Given(provider) && Given(c.model)
    requires c.accountId == Some(account)
    ensures HasAccount(c)
    ensures c.role == Some(role) && c.provider == Some(provider)
            ==> DimsOf(c) == Dims(c.bucketStart, account, role, provider, c.model)
    ensures c.role.None? && c.provider.None? ==> DimsOf(c) == Dims(c.bucketStart, account, "untagged", "unknown", c.model)
  {
    hide Text.Trim;
    Text.TrimIsTrimmed(account);
    Text.TrimIsTrimmed(role);
    Text.TrimIsTrimmed(provider);
    Text.TrimIsTrimmed(c.model);
    Text.TrimIsTrimmed("");
  }

  /** White space around a dimension does not count, and a blank one is absent. */
  lemma PaddingIsIgnored(front: string, value: string, back: string, fallback: string)
    requires Text.AllSpace(front) && Text.AllSpace(back) && Text.IsTrimmed(value)
    ensures Dimension(Some(front + value + back), fallback) == if value == "" then fallback else value
    ensures Dimension(None, fallback) == fallback
    ensures forall c: Call :: c.accountId == Some(front + value + back) ==>
              Account(c) == value && (HasAccount(c) <==> value != "")
    ensures forall c: Call :: c.accountId == None ==> !HasAccount(c)
  {
    hide Text.Trim;
    Text.TrimUnpads(front, value, back);
    Text.TrimIsTrimmed("");
  }

  // ---------- the key of a real call ----------

  /** Dimensions that recording can produce: each is trimmed and says something. */
  predicate Recordable(d: Dims) {
    Given(d.account) && Given(d.role) && Given(d.provider) && Given(d.model)
  }

  lemma DimensionIsGiven(value: Option<string>, fallback: string)
    requires Given(fallback)
    ensures Given(Dimension(value, fallback))
  {
    hide Text.Trim;
    Text.TrimIsTrimmed(value.GetOr(""));
  }

  lemma CallsAreRecordable(c: Call)
    requires HasAccount(c)
    ensures Recordable(DimsOf(c))
  {
    hide Text.Trim, Dimension, Text.IsTrimmed;
    Text.TrimIsTrimmed(c.accountId.GetOr(""));
    FallbacksAreGiven();
    DimensionIsGiven(c.role, UNTAGGED_ROLE);
    DimensionIsGiven(c.provider, UNKNOWN_PROVIDER);
    DimensionIsGiven(Some(c.model), UNKNOWN_MODEL);
  }

  lemma FallbacksAreGiven()
    ensures Given(UNTAGGED_ROLE) && Given(UNKNOWN_PROVIDER) && Given(UNKNOWN_MODEL)
  {
  }

  /** A call that is recorded under these dimensions. */
  function CallWith(d: Dims): Call {
    Call(d.bucketStart, Some(d.account), Some(d.role), Some(d.provider), d.model, true, Missing, Missing, Missing)
  }

  lemma RecordableIsRecorded(d: Dims)
    requires Recordable(d)
    ensures HasAccount(CallWith(d)) && DimsOf(CallWith(d)) == d
  {
    DimensionsAsGiven(CallWith(d), d.account, d.role, d.provider);
    hide DimsOf, HasAccount, Text.IsTrimmed;
  }

  /**
   A bar at position `i` of a part could itself be a separator: no white space stands next to it inside the part, and it
   neither starts the account nor ends the model. A part that is nothing but a bar leaves its neighbours no text.
   */
  predicate MovableAt(part: string, i: nat, isAccount: bool, isModel: bool) {
    && part != "|" && i < |part| && part[i] == '|'
    && (if i == 0 then !isAccount else !Text.IsSpace(part[i - 1]))
    && (if i == |part| - 1 then !isModel else !Text.IsSpace(part[i + 1]))
  }

  predicate HasMovable(part: string, isAccount: bool, isModel: bool) {
    exists i: nat | i < |part| :: MovableAt(part, i, isAccount, isModel)
  }

  predicate HasMovableBar(d: Dims) {
    || HasMovable(d.account, true, false)
    || HasMovable(d.role, false, false)
    || HasMovable(d.provider, false, false)
    || HasMovable(d.model, false, true)
  }

  /** The key behind its bucket, and where its three separators are. */
  function Rest(d: Dims): string {
    Barred(d.account, Barred(d.role, Barred(d.provider, d.model)))
  }

  function First(d: Dims): nat { |d.account| }

  function Second(d: Dims): nat { First(d) + 1 + |d.role| }

  function Third(d: Dims): nat { Second(d) + 1 + |d.provider| }

  predicate IsSeparator(d: Dims, i: nat) {
    i == First(d) || i == Second(d) || i == Third(d)
  }

  lemma BarredAt(left: string, right: string, i: nat)
    requires i < |left| + 1 + |right|
    ensures |Barred(left, right)| == |left| + 1 + |right|
    ensures Barred(left, right)[i] == if i < |left| then left[i] else if i == |left| then '|' else right[i - |left| - 1]
  {
  }

  lemma RestAt(d: Dims, i: nat)
    requires i < Third(d) + 1 + |d.model|
    ensures |Rest(d)| == Third(d) + 1 + |d.model|
    ensures Rest(d)[i] ==
              if i < First(d) then d.account[i]
              else if i == First(d) then '|'
              else if i < Second(d) then d.role[i - First(d) - 1]
              else if i == Second(d) then '|'
              else if i < Third(d) then d.provider[i - Second(d) - 1]
              else if i == Third(d) then '|'
              else d.model[i - Third(d) - 1]
  {
    hide Barred;
    var k3 := Barred(d.provider, d.model);
    var k2 := Barred(d.role, k3);
    BarredAt(d.provider, d.model, 0);
    BarredAt(d.role, k3, 0);
    BarredAt(d.account, k2, i);
    if i > First(d) {
      BarredAt(d.role, k3, i - First(d) - 1);
      if i > Second(d) {
        BarredAt(d.provider, d.model, i - Second(d) - 1);
      }
    }
  }

  lemma FirstBar(x: string, s: string, y: string, t: string)
    requires '|' !in x && '|' !in y && Barred(x, s) == Barred(y, t)
    ensures x == y && s == t
  {
    var u, v := Barred(x, s), Barred(y, t);
    assert u[|x|] == '|' && v[|y|] == '|';
    assert forall i :: 0 <= i < |x| ==> u[i] == x[i] && u[i] != '|';
    assert forall i :: 0 <= i < |y| ==> v[i] == y[i] && v[i] != '|';
    assert |x| == |y|;
    assert x == u[..|x|] && y == v[..|x|];
    assert s == u[|x| + 1..] && t == v[|x| + 1..];
  }

  lemma SharedRest(d: Dims, e: Dims)
    ensures Key(d) == Key(e) <==> d.bucketStart == e.bucketStart && Rest(d) == Rest(e)
  {
    KeyText(d);
    KeyText(e);
    Text.DecimalReads(d.bucketStart);
    Text.DecimalReads(e.bucketStart);
    hide Key, Text.Decimal, Text.ReadDecimal, Barred;
    if Key(d) == Key(e) {
      FirstBar(Text.Decimal(d.bucketStart), Rest(d), Text.Decimal(e.bucketStart), Rest(e));
    }
  }

  /** A separator stands inside the text, between characters that are no white space, and two apart from the others. */
  lemma SeparatorIsGood(e: Dims, t: nat)
    requires Recordable(e) && IsSeparator(e, t)
    ensures 0 < t && t + 1 < |Rest(e)|
    ensures Rest(e)[t] == '|' && !Text.IsSpace(Rest(e)[t - 1]) && !Text.IsSpace(Rest(e)[t + 1])
  {
    hide Rest, Text.IsSpace;
    RestAt(e, t - 1);
    RestAt(e, t);
    RestAt(e, t + 1);
  }

  /** A separator of the one that is none of the other lies on a movable bar of the other, or on a part that is a bare bar. */
  lemma NewSeparator(d: Dims, e: Dims, t: nat)
    requires Recordable(d) && Recordable(e) && Rest(d) == Rest(e) && IsSeparator(e, t) && !IsSeparator(d, t)
    ensures || HasMovableBar(d)
            || (d.role == "|" && t == First(d) + 1)
            || (d.provider == "|" && t == Second(d) + 1)
  {
    SeparatorIsGood(e, t);
    hide Rest, Text.IsSpace, HasMovableBar, HasMovable;
    RestAt(d, 0);
    RestAt(d, t - 1);
    RestAt(d, t);
    RestAt(d, t + 1);
    if t < First(d) {
      assert MovableAt(d.account, t, true, false);
      MovableIn(d, d.account, t, true, false);
    } else if t < Second(d) {
      InnerPart(d.role, t - First(d) - 1);
      if d.role != "|" {
        assert MovableAt(d.role, t - First(d) - 1, false, false);
        MovableIn(d, d.role, t - First(d) - 1, false, false);
      }
    } else if t < Third(d) {
      InnerPart(d.provider, t - Second(d) - 1);
      if d.provider != "|" {
        assert MovableAt(d.provider, t - Second(d) - 1, false, false);
        MovableIn(d, d.provider, t - Second(d) - 1, false, false);
      }
    } else {
      assert MovableAt(d.model, t - Third(d) - 1, false, true);
      MovableIn(d, d.model, t - Third(d) - 1, false, true);
    }
  }

  lemma InnerPart(part: string, i: nat)
    requires i < |part|
    ensures part == "|" ==> i == 0
  {
  }

  lemma MovableIn(d: Dims, part: string, i: nat, isAccount: bool, isModel: bool)
    requires MovableAt(part, i, isAccount, isModel)
    requires || (isAccount && !isModel && part == d.account) || (!isAccount && !isModel && part in {d.role, d.provider})
             || (!isAccount && isModel && part == d.model)
    ensures HasMovableBar(d)
  {
    assert HasMovable(part, isAccount, isModel);
  }

  lemma SameCuts(d: Dims, e: Dims)
    requires d.bucketStart == e.bucketStart && Rest(d) == Rest(e)
    requires First(d) == First(e) && Second(d) == Second(e) && Third(d) == Third(e)
    ensures d == e
  {
    CutsOf(d);
    CutsOf(e);
    hide Rest;
  }

  lemma CutsOf(d: Dims)
    ensures |Rest(d)| == Third(d) + 1 + |d.model|
    ensures d.account == Rest(d)[..First(d)] && d.role == Rest(d)[First(d) + 1..Second(d)]
    ensures d.provider == Rest(d)[Second(d) + 1..Third(d)] && d.model == Rest(d)[Third(d) + 1..]
  {
    RestAt(d, 0);
    forall i: nat | i < |Rest(d)| ensures Rest(d)[i] ==
              if i < First(d) then d.account[i]
              else if i == First(d) then '|'
              else if i < Second(d) then d.role[i - First(d) - 1]
              else if i == Second(d) then '|'
              else if i < Third(d) then d.provider[i - Second(d) - 1]
              else if i == Third(d) then '|'
              else d.model[i - Third(d) - 1] {
      RestAt(d, i);
    }
    hide Rest;
  }

  /** Without a movable bar, recordable dimensions with the same key are the same. */
  lemma UnmovableIsExact(d: Dims, e: Dims)
    requires Recordable(d) && Recordable(e) && Key(d) == Key(e) && !HasMovableBar(d)
    ensures d == e
  {
    hide Key, Rest, HasMovableBar;
    SharedRest(d, e);
    if !IsSeparator(d, First(e)) { NewSeparator(d, e, First(e)); }
    if !IsSeparator(d, Second(e)) { NewSeparator(d, e, Second(e)); }
    if !IsSeparator(d, Third(e)) { NewSeparator(d, e, Third(e)); }
    SameCuts(d, e);
  }

  lemma SplitAt(part: string, i: nat)
    requires i < |part| && part[i] == '|'
    ensures part == Barred(part[..i], part[i + 1..])
  {
  }

  /** Both halves of a part, and what they become when joined to a neighbour, are trimmed. */
  lemma HalvesAreTrimmed(part: string, i: nat, isAccount: bool, isModel: bool, neighbour: string)
    requires Given(part) && Given(neighbour) && MovableAt(part, i, isAccount, isModel)
    ensures var x, y := part[..i], part[i + 1..];
            && Text.IsTrimmed(x) && Text.IsTrimmed(y) && (isAccount ==> x != "") && (isModel ==> y != "")
            && (x != "" || y != "")
            && Given(Barred(neighbour, x)) && Given(Barred(y, neighbour))
  {
    hide Text.IsSpace;
    BarIsNoSpace();
    OneCharacter();
  }

  lemma OneCharacter()
    ensures forall s: string :: |s| == 1 ==> s == [s[0]]
  {
  }

  lemma BarIsNoSpace()
    ensures !Text.IsSpace('|')
  {
  }

  /** A movable bar taken as a separator gives other recordable dimensions with the same key. */
  lemma MovableCollides(d: Dims) returns (e: Dims)
    requires Recordable(d) && HasMovableBar(d)
    ensures Recordable(e) && e != d && Key(e) == Key(d)
  {
    hide Barred, Given, MovableAt, Key;
    if HasMovable(d.account, true, false) {
      e := MoveFromAccount(d);
    } else if HasMovable(d.role, false, false) {
      e := MoveFromRole(d);
    } else if HasMovable(d.provider, false, false) {
      e := MoveFromProvider(d);
    } else {
      e := MoveFromModel(d);
    }
    SharedRest(d, e);
  }

  lemma MoveFromAccount(d: Dims) returns (e: Dims)
    requires Recordable(d) && HasMovable(d.account, true, false)
    ensures Recordable(e) && e != d && e.bucketStart == d.bucketStart && Rest(e) == Rest(d)
  {
    var i: nat :| i < |d.account| && MovableAt(d.account, i, true, false);
    SplitAt(d.account, i);
    HalvesAreTrimmed(d.account, i, true, false, d.role);
    hide Barred;
    var x, y := d.account[..i], d.account[i + 1..];
    e := d.(account := x, role := Barred(y, d.role));
    BarredAssociates(x, y, Barred(d.role, Barred(d.provider, d.model)));
    BarredAssociates(y, d.role, Barred(d.provider, d.model));
    ShorterPart(x, y);
  }

  lemma MoveFromRole(d: Dims) returns (e: Dims)
    requires Recordable(d) && HasMovable(d.role, false, false)
    ensures Recordable(e) && e != d && e.bucketStart == d.bucketStart && Rest(e) == Rest(d)
  {
    var i: nat :| i < |d.role| && MovableAt(d.role, i, false, false);
    SplitAt(d.role, i);
    HalvesAreTrimmed(d.role, i, false, false, d.account);
    HalvesAreTrimmed(d.role, i, false, false, d.provider);
    hide Barred;
    var x, y := d.role[..i], d.role[i + 1..];
    ShorterPart(x, y);
    BarredAssociates(x, y, Barred(d.provider, d.model));
    if y != "" {
      e := d.(account := Barred(d.account, x), role := y);
      BarredAssociates(d.account, x, Barred(y, Barred(d.provider, d.model)));
    } else {
      e := d.(role := x, provider := Barred(y, d.provider));
      BarredAssociates(y, d.provider, d.model);
    }
  }

  lemma MoveFromProvider(d: Dims) returns (e: Dims)
    requires Recordable(d) && HasMovable(d.provider, false, false)
    ensures Recordable(e) && e != d && e.bucketStart == d.bucketStart && Rest(e) == Rest(d)
  {
    var i: nat :| i < |d.provider| && MovableAt(d.provider, i, false, false);
    SplitAt(d.provider, i);
    HalvesAreTrimmed(d.provider, i, false, false, d.role);
    HalvesAreTrimmed(d.provider, i, false, false, d.model);
    hide Barred;
    var x, y := d.provider[..i], d.provider[i + 1..];
    ShorterPart(x, y);
    BarredAssociates(x, y, d.model);
    if y != "" {
      e := d.(role := Barred(d.role, x), provider := y);
      BarredAssociates(d.role, x, Barred(y, d.model));
    } else {
      e := d.(provider := x, model := Barred(y, d.model));
    }
  }

  lemma MoveFromModel(d: Dims) returns (e: Dims)
    requires Recordable(d) && HasMovable(d.model, false, true)
    ensures Recordable(e) && e != d && e.bucketStart == d.bucketStart && Rest(e) == Rest(d)
  {
    var i: nat :| i < |d.model| && MovableAt(d.model, i, false, true);
    SplitAt(d.model, i);
    HalvesAreTrimmed(d.model, i, false, true, d.provider);
    hide Barred;
    var x, y := d.model[..i], d.model[i + 1..];
    e := d.(provider := Barred(d.provider, x), model := y);
    BarredAssociates(d.provider, x, y);
    ShorterPart(x, y);
  }

  /** Another call's dimensions share this call's key. */
  ghost predicate SharesKey(c: Call) {
    exists other: Call :: HasAccount(other) && DimsOf(other) != DimsOf(c) && Key(DimsOf(other)) == Key(DimsOf(c))
  }

  /** Some call of other dimensions is merged under a recorded call's key exactly when its dimensions hold a movable bar. */
  lemma KeyIsSharedExactly(c: Call)
    requires HasAccount(c)
    ensures SharesKey(c) <==> HasMovableBar(DimsOf(c))
  {
    hide HasAccount, DimsOf, Key, HasMovableBar, Recordable;
    var d := DimsOf(c);
    CallsAreRecordable(c);
    if HasMovableBar(d) {
      var e := MovableCollides(d);
      RecordableIsRecorded(e);
      assert Key(DimsOf(CallWith(e))) == Key(d);
    } else {
      forall other: Call | HasAccount(other) && Key(DimsOf(other)) == Key(d) ensures DimsOf(other) == d {
        CallsAreRecordable(other);
        UnmovableIsExact(d, DimsOf(other));
      }
    }
  }

  lemma BarFreeIsUnmovable(d: Dims)
    requires BarFree(d)
    ensures !HasMovableBar(d)
  {
  }
}
