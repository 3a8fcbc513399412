/**
 The anchor cache: candidates are staged, confirmed, and promoted to the shared table. Each SQL statement is one
 atomic step and calls interleave freely between statements. A `jsonb` column forgets the order in which an object's
 keys were written, which the fingerprint depends on.
 */
module AnchorCache {
  import opened Wrappers
  import Text

  // ---------- JSON objects and the order a jsonb column gives back ----------

  /** A JSON object as the source enumerates it; `Leaf` is a string value. */
  datatype Json = Leaf(text: string) | Obj(fields: seq<Field>)

  datatype Field = Field(key: string, value: Json)

  /** The program enumerates such keys first and in ascending order. */
  predicate IsArrayIndex(key: string) {
    && key != ""
    && (forall i :: 0 <= i < |key| ==> '0' <= key[i] <= '9')
    && (key[0] == '0' ==> |key| == 1)
    && Text.ReadDigits(key) < 0xFFFF_FFFF
  }

  function CharBytes(c: char): nat {
    if c < '\U{0080}' then 1 else if c < '\U{0800}' then 2 else if c < '\U{10000}' then 3 else 4
  }

  function ByteLength(s: string): nat {
    if s == [] then 0 else CharBytes(s[0]) + ByteLength(s[1..])
  }

  predicate CodePointsLeq(a: string, b: string) {
    a == [] || (b != [] && (a[0] < b[0] || (a[0] == b[0] && CodePointsLeq(a[1..], b[1..]))))
  }

  /** The order in which a loaded object enumerates its keys: array indices, then shorter keys, then by code points. */
  predicate KeyLeq(a: string, b: string) {
    if IsArrayIndex(a) != IsArrayIndex(b) then IsArrayIndex(a)
    else if ByteLength(a) != ByteLength(b) then ByteLength(a) < ByteLength(b)
    else CodePointsLeq(a, b)
  }

  lemma {:induction false} CodePointsTotal(a: string, b: string)
    ensures CodePointsLeq(a, b) || CodePointsLeq(b, a)
    ensures CodePointsLeq(a, b) && CodePointsLeq(b, a) ==> a == b
  {
    if a != [] && b != [] {
      CodePointsTotal(a[1..], b[1..]);
      assert a == [a[0]] + a[1..] && b == [b[0]] + b[1..];
    }
  }

  lemma {:induction false} CodePointsTransitive(a: string, b: string, c: string)
    requires CodePointsLeq(a, b) && CodePointsLeq(b, c)
    ensures CodePointsLeq(a, c)
  {
    if a != [] && b != [] && c != [] && a[0] == b[0] == c[0] {
      CodePointsTransitive(a[1..], b[1..], c[1..]);
    }
  }

  lemma KeyOrderIsTotal(a: string, b: string)
    ensures KeyLeq(a, b) || KeyLeq(b, a)
    ensures KeyLeq(a, b) && KeyLeq(b, a) ==> a == b
  {
    hide IsArrayIndex, ByteLength;
    CodePointsTotal(a, b);
  }

  lemma KeyOrderIsTransitive(a: string, b: string, c: string)
    requires KeyLeq(a, b) && KeyLeq(b, c)
    ensures KeyLeq(a, c)
  {
    hide IsArrayIndex, ByteLength;
    if CodePointsLeq(a, b) && CodePointsLeq(b, c) {
      CodePointsTransitive(a, b, c);
    }
  }

  function Pow10(n: nat): nat {
    if n == 0 then 1 else 10 * Pow10(n - 1)
  }

  predicate AllDigits(s: string) {
    forall i :: 0 <= i < |s| ==> '0' <= s[i] <= '9'
  }

  function DigitOf(c: char): int {
    c as int - '0' as int
  }

  lemma {:induction false} ReadFromFront(s: string)
    requires s != "" && AllDigits(s)
    ensures Text.ReadDigits(s) == DigitOf(s[0]) * Pow10(|s| - 1) + Text.ReadDigits(s[1..])
  {
    if |s| == 1 {
      assert s[..0] == "" && s[1..] == "";
      Text.ReadNothing();
    } else {
      var init, n := s[..|s| - 1], |s|;
      ReadFromFront(init);
      assert s[1..][..n - 2] == init[1..];
      assert s[1..][n - 2] == s[n - 1];
      Tenfold(DigitOf(s[0]), Pow10(n - 2));
    }
  }

  lemma Tenfold(d: int, p: int)
    ensures d * p * 10 == d * (10 * p)
  {
  }

  lemma Ordered(d: int, e: int, p: nat)
    requires d < e
    ensures d * p + p <= e * p
  {
    assert e * p == d * p + (e - d) * p;
    AtLeastOnce(e - d, p);
  }

  lemma AtLeastOnce(k: int, p: nat)
    requires k >= 1
    ensures k * p >= p
  {
  }

  lemma {:induction false} ReadIsBounded(s: string)
    requires AllDigits(s)
    ensures 0 <= Text.ReadDigits(s) < Pow10(|s|)
    decreases |s|
  {
    if s == "" {
      Text.ReadNothing();
    } else {
      ReadIsBounded(s[..|s| - 1]);
    }
  }

  /** Among numerals of one length the smaller number comes first. */
  lemma {:induction false} DigitsCompare(a: string, b: string)
    requires |a| == |b| && AllDigits(a) && AllDigits(b)
    ensures CodePointsLeq(a, b) <==> Text.ReadDigits(a) <= Text.ReadDigits(b)
  {
    if a != "" {
      DigitsCompare(a[1..], b[1..]);
      ReadFromFront(a);
      ReadFromFront(b);
      ReadIsBounded(a[1..]);
      ReadIsBounded(b[1..]);
      hide Text.ReadDigits, Pow10;
      var p := Pow10(|a| - 1);
      if a[0] < b[0] {
        Ordered(DigitOf(a[0]), DigitOf(b[0]), p);
      } else if b[0] < a[0] {
        Ordered(DigitOf(b[0]), DigitOf(a[0]), p);
      }
    }
  }

  lemma {:induction false} PowGrows(m: nat, n: nat)
    requires m <= n
    ensures Pow10(m) <= Pow10(n)
  {
    if m < n {
      PowGrows(m, n - 1);
    }
  }

  /** A longer array index is the larger number. */
  lemma LongerIsLarger(a: string, b: string)
    requires IsArrayIndex(a) && IsArrayIndex(b) && |a| < |b|
    ensures Text.ReadDigits(a) < Text.ReadDigits(b)
  {
    ReadIsBounded(a);
    ReadFromFront(b);
    ReadIsBounded(b[1..]);
    PowGrows(|a|, |b| - 1);
    hide Text.ReadDigits, Pow10;
    AtLeastOnce(DigitOf(b[0]), Pow10(|b| - 1));
  }

  lemma {:induction false} DigitBytes(s: string)
    requires AllDigits(s)
    ensures ByteLength(s) == |s|
  {
    if s != [] {
      DigitBytes(s[1..]);
    }
  }

  /** A loaded object enumerates its array indices first, as ascending numbers, and then its other keys, shorter ones first. */
  lemma IndicesAscendFirst(a: string, b: string)
    ensures IsArrayIndex(a) && IsArrayIndex(b) ==> (KeyLeq(a, b) <==> Text.ReadDigits(a) <= Text.ReadDigits(b))
    ensures IsArrayIndex(a) && !IsArrayIndex(b) ==> KeyLeq(a, b) && !KeyLeq(b, a)
    ensures !IsArrayIndex(a) && !IsArrayIndex(b) && ByteLength(a) < ByteLength(b) ==> KeyLeq(a, b) && !KeyLeq(b, a)
  {
    if IsArrayIndex(a) && IsArrayIndex(b) {
      DigitBytes(a);
      DigitBytes(b);
      if |a| < |b| {
        LongerIsLarger(a, b);
      } else if |b| < |a| {
        LongerIsLarger(b, a);
      } else {
        DigitsCompare(a, b);
      }
    }
  }

  function Insert(f: Field, fields: seq<Field>): seq<Field> {
    if fields == [] || KeyLeq(f.key, fields[0].key) then [f] + fields
    else [fields[0]] + Insert(f, fields[1..])
  }

  /** What a jsonb column returns for a value: every object's keys in the loading order. */
  function Reloaded(j: Json): Json {
    match j
    case Leaf(_) => j
    case Obj(fields) => Obj(ReloadedFields(fields))
  }

  function ReloadedFields(fields: seq<Field>): seq<Field> {
    if fields == [] then []
    else Insert(Field(fields[0].key, Reloaded(fields[0].value)), ReloadedFields(fields[1..]))
  }

  predicate KeysAscend(fields: seq<Field>) {
    forall i, j :: 0 <= i < j < |fields| ==> KeyLeq(fields[i].key, fields[j].key)
  }

  /** Every object, at every depth, already lists its keys in the loading order. */
  predicate InOrder(fields: seq<Field>) {
    KeysAscend(fields) && forall i :: 0 <= i < |fields| ==> ValueInOrder(fields[i].value)
  }

  predicate ValueInOrder(j: Json) {
    match j
    case Leaf(_) => true
    case Obj(fields) => InOrder(fields)
  }

  lemma {:induction false} InsertKeepsAll(f: Field, fields: seq<Field>)
    ensures multiset(Insert(f, fields)) == multiset(fields) + multiset{f}
  {
    if !(fields == [] || KeyLeq(f.key, fields[0].key)) {
      InsertKeepsAll(f, fields[1..]);
      assert fields == [fields[0]] + fields[1..];
    }
  }

  lemma {:induction false} InsertInOrder(f: Field, fields: seq<Field>)
    requires InOrder(fields) && ValueInOrder(f.value)
    ensures InOrder(Insert(f, fields))
  {
    hide KeyLeq, ValueInOrder;
    var r := Insert(f, fields);
    if fields == [] {
    } else if KeyLeq(f.key, fields[0].key) {
      forall j | 1 <= j < |r| ensures KeyLeq(f.key, r[j].key) {
        KeyOrderIsTotal(f.key, f.key);
        if j > 1 { KeyOrderIsTransitive(f.key, fields[0].key, r[j].key); }
      }
    } else {
      InsertInOrder(f, fields[1..]);
      KeyOrderIsTotal(f.key, fields[0].key);
      InsertKeepsAll(f, fields[1..]);
      var rest := Insert(f, fields[1..]);
      forall j | 1 <= j < |r| ensures KeyLeq(fields[0].key, r[j].key) {
        assert r[j] == rest[j - 1];
        assert r[j] in multiset(rest);
        assert r[j] == f || r[j] in fields[1..];
      }
    }
  }

  lemma {:induction false} ReloadedInOrder(fields: seq<Field>)
    ensures InOrder(ReloadedFields(fields))
    decreases fields
  {
    if fields != [] {
      ReloadedInOrder(fields[1..]);
      if fields[0].value.Obj? {
        ReloadedInOrder(fields[0].value.fields);
      }
      InsertInOrder(Field(fields[0].key, Reloaded(fields[0].value)), ReloadedFields(fields[1..]));
    }
  }

  lemma {:induction false} OrderedIsKept(fields: seq<Field>)
    requires InOrder(fields)
    ensures ReloadedFields(fields) == fields
    decreases fields
  {
    hide KeyLeq;
    if fields != [] {
      OrderedIsKept(fields[1..]);
      assert ValueInOrder(fields[0].value);
      if fields[0].value.Obj? {
        OrderedIsKept(fields[0].value.fields);
      }
      assert [fields[0]] + fields[1..] == fields;
    }
  }

  /** A jsonb column gives an object back unchanged exactly when it was written in the loading order. */
  lemma ReloadingKeepsExactly(fields: seq<Field>)
    ensures ReloadedFields(fields) == fields <==> InOrder(fields)
  {
    ReloadedInOrder(fields);
    if InOrder(fields) {
      OrderedIsKept(fields);
    }
  }

  lemma ReloadingTwice(fields: seq<Field>)
    ensures ReloadedFields(ReloadedFields(fields)) == ReloadedFields(fields)
  {
    ReloadedInOrder(fields);
    OrderedIsKept(ReloadedFields(fields));
  }

  // ---------- anchors and their rows ----------

  datatype TextMatch = Exact | Contains

  datatype Anchor = Anchor(
    actionId: string,
    role: Option<string>,
    text: Option<string>,
    textMatch: Option<TextMatch>,
    attributes: Option<seq<Field>>,
    scope: Option<seq<Field>>)

  datatype Columns = Columns(
    role: Option<string>,
    text: Option<string>,
    textMatch: TextMatch,
    attributes: seq<Field>,
    scope: Option<seq<Field>>)

  /** The ordered content that the fingerprint prints. */
  datatype Fingerprint = Fingerprint(
    role: string,
    text: string,
    textMatch: TextMatch,
    attributes: seq<Field>,
    scope: seq<Field>)

  function FingerprintOf(a: Anchor): Fingerprint {
    Fingerprint(a.role.GetOr(""), a.text.GetOr(""), a.textMatch.GetOr(Contains), a.attributes.GetOr([]), a.scope.GetOr([]))
  }

  function Stored(a: Anchor): Columns {
    Columns(a.role, a.text, a.textMatch.GetOr(Contains), ReloadedFields(a.attributes.GetOr([])),
            if a.scope.Some? then Some(ReloadedFields(a.scope.value)) else None)
  }

  function NonEmpty(s: Option<string>): Option<string> {
    if s == Some("") then None else s
  }

  function RowToAnchor(actionId: string, c: Columns): Anchor {
    Anchor(actionId, NonEmpty(c.role), NonEmpty(c.text), Some(c.textMatch),
           if c.attributes != [] then Some(c.attributes) else None, c.scope)
  }

  /** A loaded anchor has a text match, none of its texts is empty, and it has attributes exactly when some were stored. */
  lemma LoadedIsLean(id: string, a: Anchor)
    ensures var x := RowToAnchor(id, Stored(a));
            && x.actionId == id
            && x.role == (if a.role == Some("") then None else a.role)
            && x.text == (if a.text == Some("") then None else a.text)
            && x.textMatch == Some(if a.textMatch.None? then Contains else a.textMatch.value)
            && (x.attributes.None? <==> a.attributes.None? || a.attributes.value == [])
            && (x.scope.None? <==> a.scope.None?)
  {
    if a.attributes.Some? && a.attributes.value != [] {
      FieldsStay(a.attributes.value);
    }
    NoFields([]);
    hide ReloadedFields;
  }

  lemma FieldsStay(fields: seq<Field>)
    requires fields != []
    ensures ReloadedFields(fields) != []
  {
  }

  /** Storing and loading an anchor keeps its fingerprint exactly when its objects were written in the loading order. */
  lemma StoringKeepsFingerprintExactly(a: Anchor)
    ensures FingerprintOf(RowToAnchor(a.actionId, Stored(a))) == FingerprintOf(a)
            <==> InOrder(a.attributes.GetOr([])) && InOrder(a.scope.GetOr([]))
  {
    hide ReloadedFields, InOrder;
    ReloadingKeepsExactly(a.attributes.GetOr([]));
    ReloadingKeepsExactly(a.scope.GetOr([]));
    NoFields([]);
  }

  lemma NoFields(fields: seq<Field>)
    requires fields == []
    ensures InOrder(fields) && ReloadedFields(fields) == []
  {
  }

  /** Once loaded, an anchor keeps its fingerprint however often it is stored again: promoting a staged row is such a copy. */
  lemma CopyingKeepsFingerprint(a: Anchor)
    ensures var loaded := RowToAnchor(a.actionId, Stored(a));
            FingerprintOf(RowToAnchor(a.actionId, Stored(loaded))) == FingerprintOf(loaded)
  {
    hide ReloadedFields, InOrder;
    ReloadingTwice(a.attributes.GetOr([]));
    ReloadingTwice(a.scope.GetOr([]));
    NoFields([]);
  }

  /**
   Candidates with the same fingerprint load as the same anchor, an absent and an empty scope aside: confirmations
   counted for one speak for the other.
   */
  lemma SameFingerprintSameAnchor(a: Anchor, b: Anchor)
    requires a.actionId == b.actionId && FingerprintOf(a) == FingerprintOf(b)
    ensures var x, y := RowToAnchor(a.actionId, Stored(a)), RowToAnchor(b.actionId, Stored(b));
            x.(scope := None) == y.(scope := None) && x.scope.GetOr([]) == y.scope.GetOr([])
  {
    hide ReloadedFields;
    NoFields([]);
  }

  lemma {:induction false} AsciiBytes(s: string)
    requires forall i :: 0 <= i < |s| ==> s[i] < '\U{0080}'
    ensures ByteLength(s) == |s|
  {
    if s != [] {
      AsciiBytes(s[1..]);
    }
  }

  lemma ContainsTextOutgrowsAttributes()
    ensures !KeyLeq("containsText", "attributes")
  {
    hide ByteLength, Text.ReadDigits, CodePointsLeq;
    AsciiBytes("attributes");
    AsciiBytes("containsText");
    assert "containsText"[0] == 'c' && "attributes"[0] == 'a';
  }

  /** A scope written with `containsText` before `attributes`, as its type declares them, never keeps its fingerprint. */
  lemma DeclaredScopeOrderIsLost(a: Anchor, wanted: string, attributes: seq<Field>)
    requires a.scope == Some([Field("containsText", Leaf(wanted)), Field("attributes", Obj(attributes))])
    ensures FingerprintOf(RowToAnchor(a.actionId, Stored(a))) != FingerprintOf(a)
  {
    hide KeyLeq, ReloadedFields;
    StoringKeepsFingerprintExactly(a);
    ContainsTextOutgrowsAttributes();
    var fields := a.scope.value;
    assert !KeyLeq(fields[0].key, fields[1].key);
  }

  // ---------- staging, confirming, promoting ----------

  datatype Staged = Staged(columns: Columns, successes: nat, fingerprint: Fingerprint)

  /** What a confirming call still has to do. */
  datatype Rest = PutNext(actionId: string, anchor: Anchor, fingerprint: Fingerprint) | DropNext(actionId: string)

  /** The statements that have run against the two tables. */
  datatype Statement =
    | StageSql(actionId: string, fingerprint: Fingerprint, columns: Columns)
    | ConfirmSql(actionId: string)
    | DropSql(actionId: string)
    | PutSql(actionId: string, columns: Columns)
      /** The put of a promotion. */
    | PromoteSql(actionId: string, anchor: Anchor, fingerprint: Fingerprint)

  datatype Cache = Cache(
    staging: map<string, Staged>,
    anchors: map<string, Columns>,
    calls: map<nat, Rest>,
    log: seq<Statement>)

  const Empty := Cache(map[], map[], map[], [])

  datatype Event =
    | Stage(anchor: Anchor)
      /** Call `call` confirms; the row it returned decides whether it goes on to promote. */
    | Confirm(call: nat, actionId: string)
    | PutRuns(call: nat)
    | DropRuns(call: nat)
    | DropStaged(actionId: string)
    | Put(anchor: Anchor)

  function Threshold(option: Option<int>): nat {
    var t := option.GetOr(2);
    if t < 1 then 1 else t
  }

  function Logged(c: Cache, s: Statement): Cache {
    c.(log := c.log + [s])
  }

  function StageRow(c: Cache, a: Anchor): Cache {
    var fp := FingerprintOf(a);
    var kept := a.actionId in c.staging && c.staging[a.actionId].fingerprint == fp;
    var row := Staged(Stored(a), if kept then c.staging[a.actionId].successes else 0, fp);
    Logged(c.(staging := c.staging[a.actionId := row]), StageSql(a.actionId, fp, Stored(a)))
  }

  function DropRow(c: Cache, id: string): Cache {
    Logged(c.(staging := c.staging - {id}), DropSql(id))
  }

  function ConfirmRow(threshold: nat, c: Cache, call: nat, id: string): Cache {
    if id !in c.staging then Logged(c, ConfirmSql(id))
    else
      var row := c.staging[id].(successes := c.staging[id].successes + 1);
      var c := Logged(c.(staging := c.staging[id := row]), ConfirmSql(id));
      if row.successes >= threshold
      then c.(calls := c.calls[call := PutNext(id, RowToAnchor(id, row.columns), row.fingerprint)])
      else c
  }

  function Step(threshold: nat, c: Cache, e: Event): Cache {
    match e
    case Stage(a) => StageRow(c, a)
    case Confirm(call, id) => if call in c.calls then c else ConfirmRow(threshold, c, call, id)
    case PutRuns(call) =>
      if call !in c.calls || !c.calls[call].PutNext? then c
      else
        var todo := c.calls[call];
        Logged(c.(anchors := c.anchors[todo.actionId := Stored(todo.anchor)], calls := c.calls[call := DropNext(todo.actionId)]),
               PromoteSql(todo.actionId, todo.anchor, todo.fingerprint))
    case DropRuns(call) =>
      if call !in c.calls || !c.calls[call].DropNext? then c
      else DropRow(c.(calls := c.calls - {call}), c.calls[call].actionId)
    case DropStaged(id) => DropRow(c, id)
    case Put(a) =>
      Logged(c.(anchors := c.anchors[a.actionId := Stored(a)]), PutSql(a.actionId, Stored(a)))
  }

  function Run(threshold: nat, es: seq<Event>): Cache {
    if es == [] then Empty else Step(threshold, Run(threshold, es[..|es| - 1]), es[|es| - 1])
  }

  // ---------- what a log of statements proves about a candidate ----------

  /** The candidate is dropped, or replaced by one with another fingerprint. */
  predicate Disturbs(s: Statement, id: string, fp: Fingerprint) {
    s == DropSql(id) || (s.StageSql? && s.actionId == id && s.fingerprint != fp)
  }

  function Confirmations(log: seq<Statement>, id: string): nat {
    if log == [] then 0
    else Confirmations(log[..|log| - 1], id) + if log[|log| - 1] == ConfirmSql(id) then 1 else 0
  }

  /** Staged at position `i` with this fingerprint, undisturbed since, and confirmed `n` times since. */
  ghost predicate BackedSince(log: seq<Statement>, id: string, fp: Fingerprint, n: nat, i: nat) {
    && i < |log|
    && log[i].StageSql? && log[i].actionId == id && log[i].fingerprint == fp
    && (forall k :: i < k < |log| ==> !Disturbs(log[k], id, fp))
    && Confirmations(log[i..], id) == n
  }

  ghost predicate Backed(log: seq<Statement>, id: string, fp: Fingerprint, n: nat) {
    exists i :: BackedSince(log, id, fp, n, i)
  }

  /** What the latest stage of an action wrote. */
  function LastStaged(log: seq<Statement>, id: string): Option<Statement> {
    if log == [] then None
    else if log[|log| - 1].StageSql? && log[|log| - 1].actionId == id then Some(log[|log| - 1])
    else LastStaged(log[..|log| - 1], id)
  }

  /** A promotion was decided after the first `j` statements, on a candidate with enough undisturbed confirmations. */
  ghost predicate DecidedAt(threshold: nat, log: seq<Statement>, id: string, anchor: Anchor, fp: Fingerprint, j: nat) {
    && 0 < j <= |log|
    && log[j - 1] == ConfirmSql(id)
    && (exists n :: n >= threshold && Backed(log[..j], id, fp, n))
    && (exists columns :: LastStaged(log[..j], id) == Some(StageSql(id, fp, columns)) && anchor == RowToAnchor(id, columns))
  }

  ghost predicate Decided(threshold: nat, log: seq<Statement>, id: string, anchor: Anchor, fp: Fingerprint) {
    exists j :: DecidedAt(threshold, log, id, anchor, fp, j)
  }

  ghost predicate Inv(threshold: nat, c: Cache) {
    && (forall id :: id in c.staging ==> RowBacked(c, id))
    && (forall call :: call in c.calls && c.calls[call].PutNext? ==>
          Decided(threshold, c.log, c.calls[call].actionId, c.calls[call].anchor, c.calls[call].fingerprint))
    && (forall k :: 0 <= k < |c.log| && c.log[k].PromoteSql? ==>
          Decided(threshold, c.log[..k], c.log[k].actionId, c.log[k].anchor, c.log[k].fingerprint))
  }

  ghost predicate RowBacked(c: Cache, id: string)
    requires id in c.staging
  {
    && Backed(c.log, id, c.staging[id].fingerprint, c.staging[id].successes)
    && LastStaged(c.log, id) == Some(StageSql(id, c.staging[id].fingerprint, c.staging[id].columns))
  }

  lemma BackedGrows(log: seq<Statement>, s: Statement, id: string, fp: Fingerprint, n: nat)
    requires Backed(log, id, fp, n) && !Disturbs(s, id, fp)
    ensures Backed(log + [s], id, fp, n + if s == ConfirmSql(id) then 1 else 0)
  {
    var i: nat :| BackedSince(log, id, fp, n, i);
    assert (log + [s])[i..] == log[i..] + [s];
    assert (log[i..] + [s])[..|log[i..]|] == log[i..];
    assert BackedSince(log + [s], id, fp, n + if s == ConfirmSql(id) then 1 else 0, i);
  }

  lemma BackedStarts(log: seq<Statement>, id: string, fp: Fingerprint, columns: Columns)
    ensures Backed(log + [StageSql(id, fp, columns)], id, fp, 0)
  {
    var s := StageSql(id, fp, columns);
    assert (log + [s])[|log|..] == [s];
    assert [s][..0] == [];
    assert BackedSince(log + [s], id, fp, 0, |log|);
  }

  lemma LastStagedGrows(log: seq<Statement>, s: Statement, id: string)
    ensures LastStaged(log + [s], id) == if s.StageSql? && s.actionId == id then Some(s) else LastStaged(log, id)
  {
    assert (log + [s])[..|log|] == log;
  }

  lemma DecidedGrows(threshold: nat, log: seq<Statement>, s: Statement, id: string, anchor: Anchor, fp: Fingerprint)
    requires Decided(threshold, log, id, anchor, fp)
    ensures Decided(threshold, log + [s], id, anchor, fp)
  {
    hide Backed, LastStaged;
    var j: nat :| DecidedAt(threshold, log, id, anchor, fp, j);
    assert (log + [s])[..j] == log[..j];
    assert DecidedAt(threshold, log + [s], id, anchor, fp, j);
  }

  /** A statement that leaves the staged rows of other actions alone keeps what is known of them. */
  lemma RowBackedGrows(c: Cache, d: Cache, s: Statement, id: string)
    requires id in c.staging && id in d.staging && d.log == c.log + [s] && RowBacked(c, id)
    requires s.StageSql? ==> s.actionId != id
    requires s != DropSql(id)
    requires d.staging[id] == if s == ConfirmSql(id) then c.staging[id].(successes := c.staging[id].successes + 1) else c.staging[id]
    ensures RowBacked(d, id)
  {
    hide Backed, LastStaged;
    BackedGrows(c.log, s, id, c.staging[id].fingerprint, c.staging[id].successes);
    LastStagedGrows(c.log, s, id);
  }

  /** One more statement keeps everything known of earlier promotions and of the calls under way. */
  lemma PromotionsGrow(threshold: nat, c: Cache, s: Statement)
    requires Inv(threshold, c)
    requires s.PromoteSql? ==> Decided(threshold, c.log, s.actionId, s.anchor, s.fingerprint)
    ensures var log := c.log + [s];
            && (forall call :: call in c.calls && c.calls[call].PutNext? ==>
                  Decided(threshold, log, c.calls[call].actionId, c.calls[call].anchor, c.calls[call].fingerprint))
            && (forall k :: 0 <= k < |log| && log[k].PromoteSql? ==>
                  Decided(threshold, log[..k], log[k].actionId, log[k].anchor, log[k].fingerprint))
  {
    hide Decided, RowBacked;
    var log := c.log + [s];
    forall call | call in c.calls && c.calls[call].PutNext?
      ensures Decided(threshold, log, c.calls[call].actionId, c.calls[call].anchor, c.calls[call].fingerprint)
    {
      DecidedGrows(threshold, c.log, s, c.calls[call].actionId, c.calls[call].anchor, c.calls[call].fingerprint);
    }
    forall k | 0 <= k < |log| && log[k].PromoteSql?
      ensures Decided(threshold, log[..k], log[k].actionId, log[k].anchor, log[k].fingerprint)
    {
      assert log[..k] == c.log[..k];
      assert c.log[..|c.log|] == c.log;
    }
  }

  lemma StageKeepsInv(threshold: nat, c: Cache, a: Anchor)
    requires Inv(threshold, c)
    ensures Inv(threshold, StageRow(c, a))
  {
    hide Decided, Backed, LastStaged, FingerprintOf, Stored;
    var d, fp := StageRow(c, a), FingerprintOf(a);
    var s := StageSql(a.actionId, fp, Stored(a));
    PromotionsGrow(threshold, c, s);
    forall id | id in d.staging ensures RowBacked(d, id) {
      if id != a.actionId {
        RowBackedGrows(c, d, s, id);
      } else {
        LastStagedGrows(c.log, s, id);
        if id in c.staging && c.staging[id].fingerprint == fp {
          BackedGrows(c.log, s, id, fp, c.staging[id].successes);
        } else {
          BackedStarts(c.log, id, fp, Stored(a));
        }
      }
    }
  }

  lemma DropKeepsInv(threshold: nat, c: Cache, id: string)
    requires Inv(threshold, c)
    ensures Inv(threshold, DropRow(c, id))
  {
    hide Decided, RowBacked;
    var d := DropRow(c, id);
    PromotionsGrow(threshold, c, DropSql(id));
    forall other | other in d.staging ensures RowBacked(d, other) {
      RowBackedGrows(c, d, DropSql(id), other);
    }
  }

  lemma ConfirmKeepsInv(threshold: nat, c: Cache, call: nat, id: string)
    requires Inv(threshold, c)
    ensures Inv(threshold, ConfirmRow(threshold, c, call, id))
  {
    hide Decided, RowBacked, RowToAnchor;
    var d, s := ConfirmRow(threshold, c, call, id), ConfirmSql(id);
    PromotionsGrow(threshold, c, s);
    forall other | other in d.staging ensures RowBacked(d, other) {
      RowBackedGrows(c, d, s, other);
    }
    if id in c.staging && d.staging[id].successes >= threshold {
      DecisionIsBacked(threshold, d, id);
    }
  }

  /** A confirmation that reaches the threshold decides on the row as it stands. */
  lemma DecisionIsBacked(threshold: nat, d: Cache, id: string)
    requires id in d.staging && RowBacked(d, id) && d.staging[id].successes >= threshold
    requires d.log != [] && d.log[|d.log| - 1] == ConfirmSql(id)
    ensures Decided(threshold, d.log, id, RowToAnchor(id, d.staging[id].columns), d.staging[id].fingerprint)
  {
    hide Backed, LastStaged, RowToAnchor;
    var row := d.staging[id];
    assert d.log[..|d.log|] == d.log;
    assert DecidedAt(threshold, d.log, id, RowToAnchor(id, row.columns), row.fingerprint, |d.log|);
  }

  lemma OtherStatementKeepsInv(threshold: nat, c: Cache, s: Statement, d: Cache)
    requires Inv(threshold, c) && d.staging == c.staging && d.log == c.log + [s]
    requires s.PutSql? || (s.PromoteSql? && Decided(threshold, c.log, s.actionId, s.anchor, s.fingerprint))
    requires forall call :: call in d.calls && d.calls[call].PutNext? ==> call in c.calls && c.calls[call] == d.calls[call]
    ensures Inv(threshold, d)
  {
    hide Decided, RowBacked;
    PromotionsGrow(threshold, c, s);
    forall id | id in d.staging ensures RowBacked(d, id) {
      RowBackedGrows(c, d, s, id);
    }
  }

  lemma StepKeepsInv(threshold: nat, c: Cache, e: Event)
    requires Inv(threshold, c)
    ensures Inv(threshold, Step(threshold, c, e))
  {
    hide Decided, RowBacked, Stored, StageRow, ConfirmRow, DropRow;
    match e
    case Stage(a) => StageKeepsInv(threshold, c, a);
    case Confirm(call, id) =>
      if call !in c.calls { ConfirmKeepsInv(threshold, c, call, id); }
    case PutRuns(call) =>
      if call in c.calls && c.calls[call].PutNext? {
        var todo := c.calls[call];
        OtherStatementKeepsInv(threshold, c, PromoteSql(todo.actionId, todo.anchor, todo.fingerprint),
                               Step(threshold, c, e));
      }
    case DropRuns(call) =>
      if call in c.calls && c.calls[call].DropNext? {
        FewerCallsKeepInv(threshold, c, call);
        DropKeepsInv(threshold, c.(calls := c.calls - {call}), c.calls[call].actionId);
      }
    case DropStaged(id) => DropKeepsInv(threshold, c, id);
    case Put(a) =>
      OtherStatementKeepsInv(threshold, c, PutSql(a.actionId, Stored(a)), Step(threshold, c, e));
  }

  lemma FewerCallsKeepInv(threshold: nat, c: Cache, call: nat)
    requires Inv(threshold, c)
    ensures Inv(threshold, c.(calls := c.calls - {call}))
  {
    hide Decided, Backed, LastStaged;
    assert forall id :: id in c.staging ==> RowBacked(c, id);
    assert forall id :: id in c.staging ==> RowBacked(c.(calls := c.calls - {call}), id);
  }

  lemma {:induction false} Reachable(threshold: nat, es: seq<Event>)
    ensures Inv(threshold, Run(threshold, es))
  {
    hide Step;
    if es != [] {
      Reachable(threshold, es[..|es| - 1]);
      StepKeepsInv(threshold, Run(threshold, es[..|es| - 1]), es[|es| - 1]);
    }
  }

  /**
   Anti-pollution: whatever calls interleave, every promotion writes the anchor of a candidate that was confirmed at
   least as often as the threshold asks since it was staged, with no drop and no other fingerprint staged in between.
   */
  lemma PromotionWasConfirmed(option: Option<int>, es: seq<Event>, k: nat)
    returns (j: nat, i: nat)
    requires k < |Run(Threshold(option), es).log| && Run(Threshold(option), es).log[k].PromoteSql?
    ensures var log := Run(Threshold(option), es).log;
            var id, fp := log[k].actionId, log[k].fingerprint;
            && i < j <= k
            && log[i].StageSql? && log[i].actionId == id && log[i].fingerprint == fp
            && (forall m :: i < m < j ==> !Disturbs(log[m], id, fp))
            && Confirmations(log[i..j], id) >= (if option.None? then 2 else option.value)
            && Confirmations(log[i..j], id) >= 1
            && log[j - 1] == ConfirmSql(id)
            && (exists columns :: LastStaged(log[..j], id) == Some(StageSql(id, fp, columns))
                                  && log[k].anchor == RowToAnchor(id, columns))
  {
    hide LastStaged, Run, Confirmations;
    Reachable(Threshold(option), es);
    var log := Run(Threshold(option), es).log;
    var id, fp := log[k].actionId, log[k].fingerprint;
    assert Decided(Threshold(option), log[..k], id, log[k].anchor, fp);
    j :| DecidedAt(Threshold(option), log[..k], id, log[k].anchor, fp, j);
    assert log[..k][..j] == log[..j];
    var n :| n >= Threshold(option) && Backed(log[..j], id, fp, n);
    i :| BackedSince(log[..j], id, fp, n, i);
    assert log[..j][i..] == log[i..j];
    forall m | i < m < j ensures !Disturbs(log[m], id, fp) {
      assert log[..j][m] == log[m];
    }
  }

  // ---------- the delete that ends a promotion ----------

  predicate Touches(s: Statement, id: string) {
    s == DropSql(id) || (s.StageSql? && s.actionId == id)
  }

  /** The staged row that the statements on an action leave behind, if any. */
  function Standing(log: seq<Statement>, id: string): Option<Statement> {
    if log == [] then None
    else
      var last := log[|log| - 1];
      if last == DropSql(id) then None
      else if last.StageSql? && last.actionId == id then Some(last)
      else Standing(log[..|log| - 1], id)
  }

  lemma StandingAppend(log: seq<Statement>, s: Statement, id: string)
    ensures Standing(log + [s], id)
            == if s == DropSql(id) then None else if s.StageSql? && s.actionId == id then Some(s) else Standing(log, id)
  {
    assert (log + [s])[..|log|] == log;
  }

  /** The table holds exactly the rows that the statements leave behind. */
  ghost predicate Stands(c: Cache) {
    forall id :: Standing(c.log, id)
                 == if id in c.staging then Some(StageSql(id, c.staging[id].fingerprint, c.staging[id].columns)) else None
  }

  lemma StageStands(c: Cache, a: Anchor)
    requires Stands(c)
    ensures Stands(StageRow(c, a))
  {
    hide Standing, FingerprintOf, Stored;
    var d := StageRow(c, a);
    forall id ensures Standing(d.log, id)
                 == if id in d.staging then Some(StageSql(id, d.staging[id].fingerprint, d.staging[id].columns)) else None {
      StandingAppend(c.log, StageSql(a.actionId, FingerprintOf(a), Stored(a)), id);
    }
  }

  lemma DropStands(c: Cache, dropped: string)
    requires Stands(c)
    ensures Stands(DropRow(c, dropped))
  {
    hide Standing;
    var d := DropRow(c, dropped);
    forall id ensures Standing(d.log, id)
                 == if id in d.staging then Some(StageSql(id, d.staging[id].fingerprint, d.staging[id].columns)) else None {
      StandingAppend(c.log, DropSql(dropped), id);
    }
  }

  lemma OtherStands(c: Cache, d: Cache, s: Statement)
    requires Stands(c) && d.log == c.log + [s] && !s.StageSql? && !s.DropSql? && d.staging.Keys == c.staging.Keys
    requires forall id :: id in c.staging ==>
               d.staging[id].fingerprint == c.staging[id].fingerprint && d.staging[id].columns == c.staging[id].columns
    ensures Stands(d)
  {
    hide Standing;
    forall id ensures Standing(d.log, id)
                 == if id in d.staging then Some(StageSql(id, d.staging[id].fingerprint, d.staging[id].columns)) else None {
      StandingAppend(c.log, s, id);
    }
  }

  lemma StepStands(threshold: nat, c: Cache, e: Event)
    requires Stands(c)
    ensures Stands(Step(threshold, c, e))
  {
    hide Stands, Stored, StageRow, DropRow, RowToAnchor, FingerprintOf;
    match e
    case Stage(a) => StageStands(c, a);
    case Confirm(call, id) =>
      if call !in c.calls { OtherStands(c, Step(threshold, c, e), ConfirmSql(id)); }
    case PutRuns(call) =>
      if call in c.calls && c.calls[call].PutNext? {
        var todo := c.calls[call];
        OtherStands(c, Step(threshold, c, e), PromoteSql(todo.actionId, todo.anchor, todo.fingerprint));
      }
    case DropRuns(call) =>
      if call in c.calls && c.calls[call].DropNext? {
        FewerCallsStand(c, c.calls - {call});
        DropStands(c.(calls := c.calls - {call}), c.calls[call].actionId);
      }
    case DropStaged(id) => DropStands(c, id);
    case Put(a) => OtherStands(c, Step(threshold, c, e), PutSql(a.actionId, Stored(a)));
  }

  lemma FewerCallsStand(c: Cache, calls: map<nat, Rest>)
    requires Stands(c)
    ensures Stands(c.(calls := calls))
  {
  }

  lemma {:induction false} RunStands(threshold: nat, es: seq<Event>)
    ensures Stands(Run(threshold, es))
  {
    hide Step;
    if es != [] {
      RunStands(threshold, es[..|es| - 1]);
      hide Stands;
      StepStands(threshold, Run(threshold, es[..|es| - 1]), es[|es| - 1]);
    }
  }

  // ---------- how often a standing candidate was confirmed ----------

  predicate Stages(s: Statement, id: string, fp: Fingerprint) {
    s.StageSql? && s.actionId == id && s.fingerprint == fp
  }

  /** Nothing after position `i` drops the candidate or replaces it by another one. */
  predicate Undisturbed(log: seq<Statement>, id: string, fp: Fingerprint, i: nat) {
    forall k :: i < k < |log| ==> !Disturbs(log[k], id, fp)
  }

  /** The standing candidate was first staged at position `i`: every earlier stage of it was disturbed before. */
  ghost predicate FirstStaged(log: seq<Statement>, id: string, fp: Fingerprint, i: nat) {
    && i < |log| && Stages(log[i], id, fp) && Undisturbed(log, id, fp, i)
    && forall h :: 0 <= h < i && Stages(log[h], id, fp) ==> !Undisturbed(log[..i], id, fp, h)
  }

  /** A stage that nothing has disturbed stands. */
  lemma {:induction false} UndisturbedStands(log: seq<Statement>, id: string, fp: Fingerprint, h: nat)
    requires h < |log| && Stages(log[h], id, fp) && Undisturbed(log, id, fp, h)
    ensures Standing(log, id).Some? && Stages(Standing(log, id).value, id, fp)
  {
    if h < |log| - 1 {
      UndisturbedStands(log[..|log| - 1], id, fp, h);
    }
  }

  lemma FirstIsUnique(log: seq<Statement>, id: string, fp: Fingerprint, i: nat, j: nat)
    requires FirstStaged(log, id, fp, i) && FirstStaged(log, id, fp, j)
    ensures i == j
  {
    assert i < j ==> Undisturbed(log[..j], id, fp, i);
    assert j < i ==> Undisturbed(log[..i], id, fp, j);
  }

  lemma FirstGrows(log: seq<Statement>, s: Statement, id: string, fp: Fingerprint, i: nat)
    requires FirstStaged(log, id, fp, i) && !Disturbs(s, id, fp)
    ensures FirstStaged(log + [s], id, fp, i)
    ensures Confirmations((log + [s])[i..], id) == Confirmations(log[i..], id) + if s == ConfirmSql(id) then 1 else 0
  {
    assert (log + [s])[i..] == log[i..] + [s];
    assert (log[i..] + [s])[..|log[i..]|] == log[i..];
    assert (log + [s])[..i] == log[..i];
  }

  /** A stage that finds no candidate of its own standing begins a new count. */
  lemma FirstStarts(log: seq<Statement>, s: Statement, id: string, fp: Fingerprint)
    requires Stages(s, id, fp)
    requires Standing(log, id).Some? ==> !Stages(Standing(log, id).value, id, fp)
    ensures FirstStaged(log + [s], id, fp, |log|) && Confirmations((log + [s])[|log|..], id) == 0
  {
    hide Standing;
    forall h | 0 <= h < |log| && Stages(log[h], id, fp) ensures !Undisturbed((log + [s])[..|log|], id, fp, h) {
      assert (log + [s])[..|log|] == log;
      if Undisturbed(log, id, fp, h) {
        UndisturbedStands(log, id, fp, h);
      }
    }
    assert (log + [s])[|log|..] == [s];
    assert [s][..0] == [];
  }

  ghost predicate CountedFrom(c: Cache, id: string, i: nat)
    requires id in c.staging
  {
    FirstStaged(c.log, id, c.staging[id].fingerprint, i) && c.staging[id].successes == Confirmations(c.log[i..], id)
  }

  ghost predicate Counted(c: Cache) {
    forall id :: id in c.staging ==> exists i: nat :: CountedFrom(c, id, i)
  }

  /** A statement that neither stages nor drops an action keeps its count, up to a confirmation. */
  lemma CountGrows(c: Cache, d: Cache, s: Statement, id: string)
    requires Counted(c) && id in c.staging && id in d.staging && d.log == c.log + [s]
    requires d.staging[id].fingerprint == c.staging[id].fingerprint && !Disturbs(s, id, c.staging[id].fingerprint)
    requires d.staging[id].successes == c.staging[id].successes + if s == ConfirmSql(id) then 1 else 0
    ensures exists i: nat :: CountedFrom(d, id, i)
  {
    hide FirstStaged, Confirmations, Disturbs;
    var i: nat :| CountedFrom(c, id, i);
    FirstGrows(c.log, s, id, c.staging[id].fingerprint, i);
    assert CountedFrom(d, id, i);
  }

  lemma StageCounts(c: Cache, a: Anchor)
    requires Counted(c) && Stands(c)
    ensures Counted(StageRow(c, a))
  {
    hide FirstStaged, Confirmations, FingerprintOf, Stored, Standing;
    var d, fp := StageRow(c, a), FingerprintOf(a);
    var s := StageSql(a.actionId, fp, Stored(a));
    forall id | id in d.staging ensures exists i: nat :: CountedFrom(d, id, i) {
      if id == a.actionId && !(id in c.staging && c.staging[id].fingerprint == fp) {
        FirstStarts(c.log, s, id, fp);
        assert CountedFrom(d, id, |c.log|);
      } else {
        hide Counted, Stands;
        CountGrows(c, d, s, id);
      }
    }
  }

  lemma DropCounts(c: Cache, dropped: string)
    requires Counted(c)
    ensures Counted(DropRow(c, dropped))
  {
    hide CountedFrom;
    var d := DropRow(c, dropped);
    forall id | id in d.staging ensures exists i: nat :: CountedFrom(d, id, i) {
      CountGrows(c, d, DropSql(dropped), id);
    }
  }

  lemma OtherCounts(c: Cache, d: Cache, s: Statement)
    requires Counted(c) && d.log == c.log + [s] && !s.StageSql? && !s.DropSql? && d.staging.Keys == c.staging.Keys
    requires forall id :: id in c.staging ==>
               && d.staging[id].fingerprint == c.staging[id].fingerprint
               && d.staging[id].successes == c.staging[id].successes + if s == ConfirmSql(id) then 1 else 0
    ensures Counted(d)
  {
    hide CountedFrom;
    forall id | id in d.staging ensures exists i: nat :: CountedFrom(d, id, i) {
      CountGrows(c, d, s, id);
    }
  }

  lemma FewerCallsCount(c: Cache, calls: map<nat, Rest>)
    requires Counted(c)
    ensures Counted(c.(calls := calls))
  {
    hide FirstStaged, Confirmations;
    var d := c.(calls := calls);
    forall id | id in d.staging ensures exists i: nat :: CountedFrom(d, id, i) {
      var i: nat :| CountedFrom(c, id, i);
      assert CountedFrom(d, id, i);
    }
  }

  lemma StepCounts(threshold: nat, c: Cache, e: Event)
    requires Counted(c) && Stands(c)
    ensures Counted(Step(threshold, c, e))
  {
    hide Stands, Counted, Stored, StageRow, DropRow, RowToAnchor, FingerprintOf;
    match e
    case Stage(a) => StageCounts(c, a);
    case Confirm(call, id) =>
      if call !in c.calls { OtherCounts(c, Step(threshold, c, e), ConfirmSql(id)); }
    case PutRuns(call) =>
      if call in c.calls && c.calls[call].PutNext? {
        var todo := c.calls[call];
        OtherCounts(c, Step(threshold, c, e), PromoteSql(todo.actionId, todo.anchor, todo.fingerprint));
      }
    case DropRuns(call) =>
      if call in c.calls && c.calls[call].DropNext? {
        FewerCallsCount(c, c.calls - {call});
        DropCounts(c.(calls := c.calls - {call}), c.calls[call].actionId);
      }
    case DropStaged(id) => DropCounts(c, id);
    case Put(a) => OtherCounts(c, Step(threshold, c, e), PutSql(a.actionId, Stored(a)));
  }

  lemma {:induction false} RunCounts(threshold: nat, es: seq<Event>)
    ensures Counted(Run(threshold, es))
  {
    hide Step;
    if es != [] {
      RunCounts(threshold, es[..|es| - 1]);
      RunStands(threshold, es[..|es| - 1]);
      hide Counted, Stands;
      StepCounts(threshold, Run(threshold, es[..|es| - 1]), es[|es| - 1]);
    }
  }

  /**
   Over any run, a staged row is one first staged at some position of the log and undisturbed since; its counter is the
   number of confirmations from there on, however often the same candidate was staged again in between.
   */
  lemma CountsSinceFirstStage(threshold: nat, es: seq<Event>, id: string) returns (i: nat)
    requires id in Run(threshold, es).staging
    ensures var c := Run(threshold, es);
            FirstStaged(c.log, id, c.staging[id].fingerprint, i) && c.staging[id].successes == Confirmations(c.log[i..], id)
  {
    RunCounts(threshold, es);
    hide Run;
    i :| CountedFrom(Run(threshold, es), id, i);
  }

  /** What a confirmation finds confirmed often enough, itself included. */
  ghost predicate Ripe(log: seq<Statement>, id: string, needed: int) {
    exists i: nat, fp :: FirstStaged(log, id, fp, i) && Confirmations(log[i..], id) + 1 >= needed
  }

  /**
   A confirmation decides to promote exactly when a candidate stands and its confirmations since it was first staged,
   this one included, reach the threshold: the option if it is at least one, two without an option, otherwise one.
   */
  lemma DecidesExactly(option: Option<int>, es: seq<Event>, call: nat, id: string)
    requires call !in Run(Threshold(option), es).calls
    ensures var c := Run(Threshold(option), es);
            var needed := if option.None? then 2 else if option.value < 1 then 1 else option.value;
            call in Step(Threshold(option), c, Confirm(call, id)).calls <==> Ripe(c.log, id, needed)
  {
    var t := Threshold(option);
    var c := Run(t, es);
    RunStands(t, es);
    if id in c.staging {
      var i := CountsSinceFirstStage(t, es, id);
      hide Run, FirstStaged, Confirmations, RowToAnchor, Standing;
      var fp := c.staging[id].fingerprint;
      forall j: nat, fq | FirstStaged(c.log, id, fq, j) ensures j == i {
        FirstStands(c.log, id, fq, j);
        FirstIsUnique(c.log, id, fp, i, j);
      }
    } else {
      hide Run, FirstStaged, Confirmations, RowToAnchor, Standing;
      forall j: nat, fq ensures !FirstStaged(c.log, id, fq, j) {
        if FirstStaged(c.log, id, fq, j) { FirstStands(c.log, id, fq, j); }
      }
    }
  }

  /** A call that decided to promote writes the staged anchor to the main table and then empties the row. */
  lemma PromotionCompletes(threshold: nat, es: seq<Event>, call: nat, id: string)
    requires var c := Run(threshold, es);
             call !in c.calls && id in c.staging && call in Step(threshold, c, Confirm(call, id)).calls
    ensures var c := Run(threshold, es);
            var put := Step(threshold, Step(threshold, c, Confirm(call, id)), PutRuns(call));
            var dropped := Step(threshold, put, DropRuns(call));
            && id in put.anchors && put.anchors[id] == Stored(RowToAnchor(id, c.staging[id].columns))
            && dropped.anchors == put.anchors && dropped.staging == c.staging - {id} && call !in dropped.calls
            && dropped.log == c.log + [ConfirmSql(id)]
                 + [PromoteSql(id, RowToAnchor(id, c.staging[id].columns), c.staging[id].fingerprint)] + [DropSql(id)]
  {
    hide Run, Stored, RowToAnchor;
  }

  lemma FirstStands(log: seq<Statement>, id: string, fp: Fingerprint, i: nat)
    requires FirstStaged(log, id, fp, i)
    ensures Standing(log, id).Some? && Stages(Standing(log, id).value, id, fp)
  {
    UndisturbedStands(log, id, fp, i);
  }

  /** Each event runs the one statement it stands for; a call under way confirms no second time. */
  lemma StatementsExactly(threshold: nat, c: Cache, e: Event)
    ensures Step(threshold, c, e).log
            == c.log + match e
                 case Stage(a) => [StageSql(a.actionId, FingerprintOf(a), Stored(a))]
                 case Confirm(call, id) => if call in c.calls then [] else [ConfirmSql(id)]
                 case PutRuns(call) =>
                   if call in c.calls && c.calls[call].PutNext?
                   then [PromoteSql(c.calls[call].actionId, c.calls[call].anchor, c.calls[call].fingerprint)] else []
                 case DropRuns(call) =>
                   if call in c.calls && c.calls[call].DropNext? then [DropSql(c.calls[call].actionId)] else []
                 case DropStaged(id) => [DropSql(id)]
                 case Put(a) => [PutSql(a.actionId, Stored(a))]
  {
    hide Stored, FingerprintOf, RowToAnchor;
    assert c.log + [] == c.log;
  }

  /** Over any run the staging table holds, for each action, what its last stage wrote unless it was dropped since. */
  lemma StagingTableIsLastStaged(threshold: nat, es: seq<Event>, id: string)
    ensures var c := Run(threshold, es);
            Standing(c.log, id)
            == if id in c.staging then Some(StageSql(id, c.staging[id].fingerprint, c.staging[id].columns)) else None
  {
    RunStands(threshold, es);
    hide Run, Standing;
  }

  // ---------- the main table ----------

  /** What the last put or promotion of an action wrote. */
  function Written(log: seq<Statement>, id: string): Option<Columns> {
    if log == [] then None
    else
      match log[|log| - 1]
      case PutSql(action, columns) => if action == id then Some(columns) else Written(log[..|log| - 1], id)
      case PromoteSql(action, anchor, _) => if action == id then Some(Stored(anchor)) else Written(log[..|log| - 1], id)
      case _ => Written(log[..|log| - 1], id)
  }

  lemma WrittenAppend(log: seq<Statement>, s: Statement, id: string)
    ensures Written(log + [s], id)
            == if s.PutSql? && s.actionId == id then Some(s.columns)
               else if s.PromoteSql? && s.actionId == id then Some(Stored(s.anchor))
               else Written(log, id)
  {
    hide Stored;
    assert (log + [s])[..|log|] == log;
  }

  lemma StepWrites(threshold: nat, c: Cache, e: Event, id: string)
    requires Written(c.log, id) == if id in c.anchors then Some(c.anchors[id]) else None
    ensures var d := Step(threshold, c, e); Written(d.log, id) == if id in d.anchors then Some(d.anchors[id]) else None
  {
    hide Written, Stored, RowToAnchor, FingerprintOf;
    forall s: Statement ensures Written(c.log + [s], id)
            == if s.PutSql? && s.actionId == id then Some(s.columns)
               else if s.PromoteSql? && s.actionId == id then Some(Stored(s.anchor))
               else Written(c.log, id) {
      WrittenAppend(c.log, s, id);
    }
  }

  /** Over any run the main table holds, for each action, what its last put or promotion wrote; a put writes its anchor. */
  lemma {:induction false} MainTableIsWritten(threshold: nat, es: seq<Event>, id: string)
    ensures var c := Run(threshold, es); Written(c.log, id) == if id in c.anchors then Some(c.anchors[id]) else None
    ensures es != [] && es[|es| - 1].Put? && es[|es| - 1].anchor.actionId == id ==>
              id in Run(threshold, es).anchors && Run(threshold, es).anchors[id] == Stored(es[|es| - 1].anchor)
  {
    hide Written, Stored, RowToAnchor, FingerprintOf;
    if es != [] {
      MainTableIsWritten(threshold, es[..|es| - 1], id);
      StepWrites(threshold, Run(threshold, es[..|es| - 1]), es[|es| - 1], id);
    } else {
      NothingWritten(threshold, es, id);
    }
  }

  lemma NothingWritten(threshold: nat, es: seq<Event>, id: string)
    requires es == []
    ensures Written(Run(threshold, es).log, id) == None && id !in Run(threshold, es).anchors
  {
  }

  // ---------- the delete that ends a promotion, position by position ----------

  /** The statement on an action at position `m` is the last one. */
  predicate LastTouch(log: seq<Statement>, id: string, m: nat) {
    m < |log| && Touches(log[m], id) && forall k :: m < k < |log| ==> !Touches(log[k], id)
  }

  lemma {:induction false} StandingIsLast(log: seq<Statement>, id: string, m: nat)
    requires LastTouch(log, id, m) && log[m].StageSql?
    ensures Standing(log, id) == Some(log[m]) && LastStaged(log, id) == Some(log[m])
  {
    if m < |log| - 1 {
      assert !Touches(log[|log| - 1], id);
      StandingIsLast(log[..|log| - 1], id, m);
    }
  }

  lemma {:induction false} FindStanding(log: seq<Statement>, id: string) returns (m: nat)
    requires Standing(log, id).Some?
    ensures LastTouch(log, id, m) && log[m].StageSql? && Standing(log, id) == Some(log[m])
  {
    var last := log[|log| - 1];
    if last.StageSql? && last.actionId == id {
      m := |log| - 1;
    } else {
      m := FindStanding(log[..|log| - 1], id);
    }
  }

  /** When a confirming call decided to promote, and what it promotes. */
  datatype Decision = Decision(at: nat, fingerprint: Fingerprint)

  function Decisions(threshold: nat, es: seq<Event>): map<nat, Decision> {
    if es == [] then map[]
    else
      var init, e := es[..|es| - 1], es[|es| - 1];
      NextDecisions(threshold, Run(threshold, init), e, Decisions(threshold, init))
  }

  function NextDecisions(threshold: nat, c: Cache, e: Event, ds: map<nat, Decision>): map<nat, Decision> {
    var c' := Step(threshold, c, e);
    if e.Confirm? && e.call !in c.calls && e.call in c'.calls && c'.calls[e.call].PutNext?
    then ds[e.call := Decision(|c'.log|, c'.calls[e.call].fingerprint)] else ds
  }

  /** The decision was taken on the confirmation just before its position, about the row staged last by then. */
  predicate Decides(log: seq<Statement>, id: string, d: Decision) {
    && 0 < d.at <= |log| && log[d.at - 1] == ConfirmSql(id)
    && LastStaged(log[..d.at], id).Some?
    && LastStaged(log[..d.at], id).value.StageSql? && LastStaged(log[..d.at], id).value.fingerprint == d.fingerprint
  }

  ghost predicate CallsDecided(c: Cache, ds: map<nat, Decision>) {
    forall call :: call in c.calls ==> call in ds && Decides(c.log, c.calls[call].actionId, ds[call])
  }

  lemma DecidesGrows(log: seq<Statement>, more: seq<Statement>, id: string, d: Decision)
    requires Decides(log, id, d) && log <= more
    ensures Decides(more, id, d)
  {
    hide LastStaged;
    assert more[..d.at] == log[..d.at];
  }

  lemma CallsStayDecided(c: Cache, d: Cache, ds: map<nat, Decision>)
    requires CallsDecided(c, ds) && c.log <= d.log
    requires forall call :: call in d.calls ==> call in c.calls && d.calls[call].actionId == c.calls[call].actionId
    ensures CallsDecided(d, ds)
  {
    hide Decides;
    forall call | call in d.calls ensures call in ds && Decides(d.log, d.calls[call].actionId, ds[call]) {
      DecidesGrows(c.log, d.log, c.calls[call].actionId, ds[call]);
    }
  }

  lemma ConfirmDecides(threshold: nat, c: Cache, call: nat, id: string, ds: map<nat, Decision>)
    requires Inv(threshold, c) && CallsDecided(c, ds) && call !in c.calls
    ensures CallsDecided(Step(threshold, c, Confirm(call, id)), NextDecisions(threshold, c, Confirm(call, id), ds))
  {
    hide Decided, Backed, LastStaged, RowToAnchor, Decides;
    var d := Step(threshold, c, Confirm(call, id));
    var next := NextDecisions(threshold, c, Confirm(call, id), ds);
    forall k | k in d.calls ensures k in next && Decides(d.log, d.calls[k].actionId, next[k]) {
      if k == call {
        assert RowBacked(c, id);
        LastStagedGrows(c.log, ConfirmSql(id), id);
        JustDecided(d.log, id, next[k]);
      } else {
        DecidesGrows(c.log, d.log, c.calls[k].actionId, ds[k]);
      }
    }
  }

  lemma JustDecided(log: seq<Statement>, id: string, d: Decision)
    requires log != [] && d.at == |log| && log[|log| - 1] == ConfirmSql(id)
    requires LastStaged(log, id).Some? && LastStaged(log, id).value.StageSql?
    requires LastStaged(log, id).value.fingerprint == d.fingerprint
    ensures Decides(log, id, d)
  {
    hide LastStaged;
    assert log[..|log|] == log;
  }

  lemma StepKeepsDecided(threshold: nat, c: Cache, e: Event, ds: map<nat, Decision>)
    requires Inv(threshold, c) && CallsDecided(c, ds)
    ensures CallsDecided(Step(threshold, c, e), NextDecisions(threshold, c, e, ds))
  {
    hide Inv, CallsDecided, Stored, RowToAnchor, FingerprintOf;
    if e.Confirm? {
      if e.call !in c.calls { ConfirmDecides(threshold, c, e.call, e.actionId, ds); }
    } else {
      CallsStayDecided(c, Step(threshold, c, e), ds);
    }
  }

  lemma {:induction false} CallsAreDecided(threshold: nat, es: seq<Event>)
    ensures CallsDecided(Run(threshold, es), Decisions(threshold, es))
  {
    hide Step, NextDecisions, Decides;
    if es != [] {
      var init := es[..|es| - 1];
      CallsAreDecided(threshold, init);
      Reachable(threshold, init);
      hide Inv, CallsDecided;
      StepKeepsDecided(threshold, Run(threshold, init), es[|es| - 1], Decisions(threshold, init));
    }
  }

  /** Since the decision another fingerprint was staged, and nothing has touched that row since. */
  predicate ReplacedSince(log: seq<Statement>, id: string, d: Decision) {
    exists m: nat | m < |log| :: d.at <= m && LastTouch(log, id, m) && log[m].StageSql? && log[m].fingerprint != d.fingerprint
  }

  /**
   The delete that ends a promotion removes a candidate other than the one promoted exactly when such a candidate was
   staged after the promotion was decided and still stands.
   */
  lemma LateDropExactly(threshold: nat, es: seq<Event>, call: nat)
    requires call in Run(threshold, es).calls && Run(threshold, es).calls[call].DropNext?
    ensures call in Decisions(threshold, es)
    ensures var c, d := Run(threshold, es), Decisions(threshold, es)[call];
            var id := c.calls[call].actionId;
            && Decides(c.log, id, d)
            && id !in Step(threshold, c, DropRuns(call)).staging
            && (id in c.staging && c.staging[id].fingerprint != d.fingerprint <==> ReplacedSince(c.log, id, d))
  {
    CallsAreDecided(threshold, es);
    RunStands(threshold, es);
    hide Run, Decisions, Standing, LastStaged;
    var c, d := Run(threshold, es), Decisions(threshold, es)[call];
    var id := c.calls[call].actionId;
    if id in c.staging && c.staging[id].fingerprint != d.fingerprint {
      var m := FindStanding(c.log, id);
      if m < d.at {
        StandsBefore(c.log, id, m, d.at);
      }
      assert d.at <= m;
    }
    if ReplacedSince(c.log, id, d) {
      var m: nat :| m < |c.log| && d.at <= m && LastTouch(c.log, id, m) && c.log[m].StageSql? && c.log[m].fingerprint != d.fingerprint;
      StandingIsLast(c.log, id, m);
    }
  }

  lemma StandsBefore(log: seq<Statement>, id: string, m: nat, n: nat)
    requires LastTouch(log, id, m) && log[m].StageSql? && m < n <= |log|
    ensures LastStaged(log[..n], id) == Some(log[m])
  {
    StandingIsLast(log[..n], id, m);
  }

  /** Such a run exists: a candidate staged between a promotion's decision and its delete is lost with its confirmations. */
  lemma LateDropHappens(a: Anchor, b: Anchor)
    requires a.actionId == b.actionId && FingerprintOf(a) != FingerprintOf(b)
    ensures var id := a.actionId;
            var c := Run(2, [Stage(a), Confirm(0, id), Confirm(1, id), Stage(b), PutRuns(1)]);
            && id in c.staging && c.staging[id].fingerprint == FingerprintOf(b)
            && id !in Step(2, c, DropRuns(1)).staging
            && id in c.anchors && c.anchors[id] == Stored(RowToAnchor(id, Stored(a)))
  {
    hide FingerprintOf, Stored, RowToAnchor;
    var id := a.actionId;
    var es := [Stage(a), Confirm(0, id), Confirm(1, id), Stage(b), PutRuns(1)];
    assert es == [] + [es[0]] + [es[1]] + [es[2]] + [es[3]] + [es[4]];
    RunStep(2, [], es[0]);
    RunStep(2, [] + [es[0]], es[1]);
    RunStep(2, [] + [es[0]] + [es[1]], es[2]);
    RunStep(2, [] + [es[0]] + [es[1]] + [es[2]], es[3]);
    RunStep(2, [] + [es[0]] + [es[1]] + [es[2]] + [es[3]], es[4]);
    hide Run;
    var c3 := Step(2, Step(2, Step(2, Empty, es[0]), es[1]), es[2]);
    assert 1 in c3.calls && c3.calls[1] == PutNext(id, RowToAnchor(id, Stored(a)), FingerprintOf(a));
    assert id in Step(2, c3, es[3]).staging;
  }

  lemma RunStep(threshold: nat, es: seq<Event>, e: Event)
    ensures Run(threshold, es + [e]) == Step(threshold, Run(threshold, es), e)
  {
    assert (es + [e])[..|es|] == es;
  }

  // ---------- the object ----------

  class PgAnchorCache {
    const confirmThreshold: nat
    var staging: map<string, Staged>
    var anchors: map<string, Columns>
    var calls: map<nat, Rest>
    ghost var log: seq<Statement>

    ghost function View(): Cache
      reads this
    {
      Cache(staging, anchors, calls, log)
    }

    constructor (option: Option<int>)
      ensures confirmThreshold == Threshold(option) && View() == Empty
    {
      confirmThreshold := Threshold(option);
      staging, anchors, calls, log := map[], map[], map[], [];
    }

    method Get(actionId: string) returns (anchor: Option<Anchor>)
      ensures anchor == if actionId in anchors then Some(RowToAnchor(actionId, anchors[actionId])) else None
    {
      if actionId !in anchors {
        return None;
      }
      return Some(RowToAnchor(actionId, anchors[actionId]));
    }

    method PutAnchor(anchor: Anchor)
      modifies this`anchors, this`log
      ensures View() == Step(confirmThreshold, old(View()), Put(anchor))
    {
      anchors := anchors[anchor.actionId := Stored(anchor)];
      log := log + [PutSql(anchor.actionId, Stored(anchor))];
    }

    method StageAnchor(anchor: Anchor)
      modifies this`staging, this`log
      ensures View() == Step(confirmThreshold, old(View()), Stage(anchor))
    {
      var fp := FingerprintOf(anchor);
      var successes := 0;
      if anchor.actionId in staging && staging[anchor.actionId].fingerprint == fp {
        successes := staging[anchor.actionId].successes;
      }
      staging := staging[anchor.actionId := Staged(Stored(anchor), successes, fp)];
      log := log + [StageSql(anchor.actionId, fp, Stored(anchor))];
    }

    method DropStagedRow(actionId: string)
      modifies this`staging, this`log
      ensures View() == Step(confirmThreshold, old(View()), DropStaged(actionId))
    {
      staging := staging - {actionId};
      log := log + [DropSql(actionId)];
    }

    /** The update that starts a confirming call, and the decision made on the row it returns. */
    method ConfirmStaged(call: nat, actionId: string) returns (promoting: bool)
      requires call !in calls
      modifies this`staging, this`calls, this`log
      ensures View() == Step(confirmThreshold, old(View()), Confirm(call, actionId))
      ensures promoting <==> call in calls
    {
      log := log + [ConfirmSql(actionId)];
      if actionId !in staging {
        return false;
      }
      var row := staging[actionId].(successes := staging[actionId].successes + 1);
      staging := staging[actionId := row];
      if row.successes >= confirmThreshold {
        calls := calls[call := PutNext(actionId, RowToAnchor(actionId, row.columns), row.fingerprint)];
        return true;
      }
      return false;
    }

    method ContinuePromotion(call: nat)
      requires call in calls
      modifies this
      ensures View() == Step(confirmThreshold, old(View()), if old(calls[call].PutNext?) then PutRuns(call) else DropRuns(call))
    {
      match calls[call]
      case PutNext(id, anchor, fp) =>
        anchors := anchors[id := Stored(anchor)];
        log := log + [PromoteSql(id, anchor, fp)];
        calls := calls[call := DropNext(id)];
      case DropNext(id) =>
        staging := staging - {id};
        log := log + [DropSql(id)];
        calls := calls - {call};
    }
  }
}
