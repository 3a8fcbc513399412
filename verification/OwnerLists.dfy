/** The per-owner table lists: grouping the ownership rows, printing one list as lines, and reading it back. */
module OwnerLists {
  import opened Wrappers
  import Text

  datatype Row = Row(table: string, owner: string)

  // ---------- the default sort ----------

  /** A character's place in the order of UTF-16 code units: surrogate pairs come before U+E000. */
  function UnitRank(c: char): int {
    if '\U{E000}' <= c < '\U{10000}' then c as int + 0x110000 else c as int
  }

  predicate UnitsLeq(a: string, b: string) {
    a == [] || (b != [] && (UnitRank(a[0]) < UnitRank(b[0]) || (a[0] == b[0] && UnitsLeq(a[1..], b[1..]))))
  }

  predicate IsSorted(s: seq<string>) {
    forall i, j :: 0 <= i < j < |s| ==> UnitsLeq(s[i], s[j])
  }

  lemma {:induction false} UnitsTotal(a: string, b: string)
    ensures UnitsLeq(a, b) || UnitsLeq(b, a)
    ensures UnitsLeq(a, b) && UnitsLeq(b, a) ==> a == b
  {
    if a != [] && b != [] {
      UnitsTotal(a[1..], b[1..]);
      assert a == [a[0]] + a[1..] && b == [b[0]] + b[1..];
    }
  }

  lemma {:induction false} UnitsTransitive(a: string, b: string, c: string)
    requires UnitsLeq(a, b) && UnitsLeq(b, c)
    ensures UnitsLeq(a, c)
  {
    if a != [] && b != [] && c != [] && a[0] == b[0] == c[0] {
      UnitsTransitive(a[1..], b[1..], c[1..]);
    }
  }

  function Insert(t: string, sorted: seq<string>): seq<string> {
    if sorted == [] || UnitsLeq(t, sorted[0]) then [t] + sorted else [sorted[0]] + Insert(t, sorted[1..])
  }

  function Sort(tables: seq<string>): seq<string> {
    if tables == [] then [] else Insert(tables[0], Sort(tables[1..]))
  }

  lemma {:induction false} InsertKeepsAll(t: string, sorted: seq<string>)
    ensures multiset(Insert(t, sorted)) == multiset(sorted) + multiset{t}
  {
    hide UnitsLeq;
    if sorted != [] && !UnitsLeq(t, sorted[0]) {
      InsertKeepsAll(t, sorted[1..]);
      assert sorted == [sorted[0]] + sorted[1..];
    }
  }

  lemma {:induction false} InsertIsSorted(t: string, sorted: seq<string>)
    requires IsSorted(sorted)
    ensures IsSorted(Insert(t, sorted))
  {
    hide UnitsLeq;
    if sorted != [] && UnitsLeq(t, sorted[0]) {
      FirstIsLeast(t, sorted);
    } else if sorted != [] {
      var rest := Insert(t, sorted[1..]);
      InsertIsSorted(t, sorted[1..]);
      UnitsTotal(t, sorted[0]);
      InsertKeepsAll(t, sorted[1..]);
      forall k | 0 <= k < |rest| ensures UnitsLeq(sorted[0], rest[k]) {
        assert rest[k] in multiset(rest);
        assert rest[k] == t || rest[k] in sorted[1..];
      }
    }
  }

  lemma FirstIsLeast(t: string, sorted: seq<string>)
    requires IsSorted(sorted) && sorted != [] && UnitsLeq(t, sorted[0])
    ensures IsSorted([t] + sorted)
  {
    hide UnitsLeq;
    forall j | 0 <= j < |sorted| ensures UnitsLeq(t, sorted[j]) {
      if j > 0 { UnitsTransitive(t, sorted[0], sorted[j]); }
    }
  }

  /** Sorting orders the list and keeps every table as often as it occurs. */
  lemma {:induction false} SortSorts(tables: seq<string>)
    ensures IsSorted(Sort(tables)) && multiset(Sort(tables)) == multiset(tables)
  {
    hide Insert;
    if tables != [] {
      SortSorts(tables[1..]);
      InsertIsSorted(tables[0], Sort(tables[1..]));
      InsertKeepsAll(tables[0], Sort(tables[1..]));
      assert tables == [tables[0]] + tables[1..];
    }
  }

  // ---------- grouping ----------

  /** The tables of one owner, in the order of the rows. */
  function TablesOf(rows: seq<Row>, owner: string): seq<string> {
    if rows == [] then []
    else
      var last := rows[|rows| - 1];
      TablesOf(rows[..|rows| - 1], owner) + if last.owner == owner then [last.table] else []
  }

  predicate HasOwner(rows: seq<Row>, owner: string) {
    exists i :: 0 <= i < |rows| && rows[i].owner == owner
  }

  function Occurrences(rows: seq<Row>, r: Row): nat {
    multiset(rows)[r]
  }

  lemma {:induction false} TablesCounted(rows: seq<Row>, owner: string, table: string)
    ensures multiset(TablesOf(rows, owner))[table] == Occurrences(rows, Row(table, owner))
  {
    if rows != [] {
      var init := rows[..|rows| - 1];
      TablesCounted(init, owner, table);
      assert rows == init + [rows[|rows| - 1]];
      assert multiset(rows) == multiset(init) + multiset{rows[|rows| - 1]};
    }
  }

  /** Assigning to this key of a plain object replaces the object's prototype and makes no key of its own. */
  const PROTOTYPE_KEY := "__proto__"

  /** The result object: the keys an enumeration finds, and the prototype once it has been replaced. */
  datatype ListObject = ListObject(own: map<string, seq<string>>, prototype: Option<seq<string>>) {
    function Assign(key: string, list: seq<string>): ListObject {
      if key == PROTOTYPE_KEY then this.(prototype := Some(list)) else this.(own := own[key := list])
    }

    /** The list assigned to a key. A key without one reads whatever the object inherits, which is not modelled. */
    function Lookup(key: string): Option<seq<string>> {
      if key == PROTOTYPE_KEY then prototype else if key in own then Some(own[key]) else None
    }
  }

  /**
   Looking up an owner that has rows gives its tables, each as often as it occurs in the owner's rows, and nothing else; the list is
   sorted. Enumerating finds every owner but one named like the prototype slot.
   */
  ghost predicate Groups(rows: seq<Row>, lists: ListObject) {
    && (forall owner :: lists.Lookup(owner).Some? <==> HasOwner(rows, owner))
    && (forall owner :: lists.Lookup(owner).Some? ==> IsSorted(lists.Lookup(owner).value))
    && (forall owner, table :: lists.Lookup(owner).Some? ==>
          multiset(lists.Lookup(owner).value)[table] == Occurrences(rows, Row(table, owner)))
    && (forall owner :: owner in lists.own <==> HasOwner(rows, owner) && owner != PROTOTYPE_KEY)
  }

  /** What the loop's map holds after some rows: each owner met so far with its tables. */
  ghost predicate Collected(rows: seq<Row>, grouped: map<string, seq<string>>) {
    && (forall owner :: owner in grouped <==> HasOwner(rows, owner))
    && (forall owner :: owner in grouped ==> grouped[owner] == TablesOf(rows, owner))
  }

  lemma CollectOne(rows: seq<Row>, i: nat, grouped: map<string, seq<string>>)
    requires i < |rows| && Collected(rows[..i], grouped)
    ensures var bucket := if rows[i].owner in grouped then grouped[rows[i].owner] else [];
            Collected(rows[..i + 1], grouped[rows[i].owner := bucket + [rows[i].table]])
  {
    GroupGrows(rows, i);
    hide HasOwner, TablesOf;
  }

  /** The object after a sorted copy of some owners' groups was assigned. */
  ghost predicate Assigned(grouped: map<string, seq<string>>, done: set<string>, lists: ListObject) {
    && (forall owner :: owner in lists.own <==> owner in done && owner != PROTOTYPE_KEY)
    && (forall owner :: lists.Lookup(owner).Some? <==> owner in done)
    && (forall owner :: owner in done && owner in grouped ==> lists.Lookup(owner) == Some(Sort(grouped[owner])))
  }

  lemma AssignOne(grouped: map<string, seq<string>>, done: set<string>, lists: ListObject, owner: string)
    requires Assigned(grouped, done, lists) && owner in grouped
    ensures Assigned(grouped, done + {owner}, lists.Assign(owner, Sort(grouped[owner])))
  {
    hide Sort;
  }

  lemma CollectedSorts(rows: seq<Row>, grouped: map<string, seq<string>>, lists: ListObject)
    requires Collected(rows, grouped) && Assigned(grouped, grouped.Keys, lists)
    ensures Groups(rows, lists)
  {
    hide HasOwner, TablesOf, Sort, IsSorted, Occurrences, ListObject.Lookup;
    forall owner | lists.Lookup(owner).Some? ensures IsSorted(lists.Lookup(owner).value) {
      SortSorts(grouped[owner]);
    }
    forall owner, table | lists.Lookup(owner).Some?
      ensures multiset(lists.Lookup(owner).value)[table] == Occurrences(rows, Row(table, owner))
    {
      SortSorts(grouped[owner]);
      TablesCounted(rows, owner, table);
    }
  }

  /** The grouping loop over the rows, then a loop that assigns a sorted copy of each group. */
  method OwnerTableLists(rows: seq<Row>) returns (lists: ListObject)
    ensures Groups(rows, lists)
  {
    hide Collected, Groups, Assigned;
    var grouped: map<string, seq<string>> := map[];
    NothingCollected(rows);
    for i := 0 to |rows|
      invariant Collected(rows[..i], grouped)
    {
      var row := rows[i];
      CollectOne(rows, i, grouped);
      var bucket := if row.owner in grouped then grouped[row.owner] else [];
      grouped := grouped[row.owner := bucket + [row.table]];
    }
    assert rows[..|rows|] == rows;
    lists := ListObject(map[], None);
    var todo := grouped.Keys;
    NothingAssigned(grouped);
    assert grouped.Keys - todo == {};
    while todo != {}
      invariant todo <= grouped.Keys
      invariant Assigned(grouped, grouped.Keys - todo, lists)
      decreases |todo|
    {
      var owner :| owner in todo;
      AssignOne(grouped, grouped.Keys - todo, lists, owner);
      assert grouped.Keys - (todo - {owner}) == (grouped.Keys - todo) + {owner};
      lists := lists.Assign(owner, Sort(grouped[owner]));
      todo := todo - {owner};
    }
    assert grouped.Keys - {} == grouped.Keys;
    CollectedSorts(rows, grouped, lists);
  }

  lemma NothingAssigned(grouped: map<string, seq<string>>)
    ensures Assigned(grouped, {}, ListObject(map[], None))
  {
  }

  lemma NothingCollected(rows: seq<Row>)
    ensures Collected(rows[..0], map[])
  {
  }

  lemma GroupGrows(rows: seq<Row>, i: nat)
    requires i < |rows|
    ensures forall owner :: HasOwner(rows[..i + 1], owner) <==> HasOwner(rows[..i], owner) || owner == rows[i].owner
    ensures forall owner :: TablesOf(rows[..i + 1], owner)
                            == TablesOf(rows[..i], owner) + if rows[i].owner == owner then [rows[i].table] else []
    ensures !HasOwner(rows[..i], rows[i].owner) ==> TablesOf(rows[..i], rows[i].owner) == []
  {
    assert rows[..i + 1][..i] == rows[..i];
    assert rows[..i + 1] == rows[..i] + [rows[i]];
    forall owner ensures HasOwner(rows[..i + 1], owner) <==> HasOwner(rows[..i], owner) || owner == rows[i].owner {
      assert rows[..i + 1][i] == rows[i];
      if HasOwner(rows[..i], owner) {
        var k :| 0 <= k < i && rows[..i][k].owner == owner;
        assert rows[..i + 1][k].owner == owner;
      }
    }
    if !HasOwner(rows[..i], rows[i].owner) {
      assert forall k :: 0 <= k < i ==> rows[..i][k].owner != rows[i].owner;
      NoTables(rows[..i], rows[i].owner);
    }
  }

  lemma {:induction false} NoTables(rows: seq<Row>, owner: string)
    requires forall i :: 0 <= i < |rows| ==> rows[i].owner != owner
    ensures TablesOf(rows, owner) == []
  {
    if rows != [] {
      NoTables(rows[..|rows| - 1], owner);
    }
  }

  /** Every row is found by looking its owner up; enumerating the owners misses a row exactly when its owner is named `__proto__`. */
  lemma EnumerationMissesExactly(rows: seq<Row>, lists: ListObject, i: nat)
    requires Groups(rows, lists) && i < |rows|
    ensures lists.Lookup(rows[i].owner).Some? && rows[i].table in lists.Lookup(rows[i].owner).value
    ensures rows[i].owner in lists.own <==> rows[i].owner != PROTOTYPE_KEY
  {
    hide ListObject.Lookup;
    var r := rows[i];
    assert HasOwner(rows, r.owner);
    assert multiset(rows)[Row(r.table, r.owner)] > 0;
    assert multiset(lists.Lookup(r.owner).value)[r.table] > 0;
  }

  // ---------- printing and reading ----------

  const NOTICE := "# generated from boundaries/table-ownership.json — DO NOT EDIT BY HAND"
  const RECIPE := "# regenerate: npx tsx scripts/db-split/generate-owner-table-lists.ts"

  function Heading(owner: string, count: nat): string {
    "# owner=" + owner + " count=" + Text.Decimal(count)
  }

  function Lines(owner: string, tables: seq<string>): seq<string> {
    [NOTICE, RECIPE, Heading(owner, |tables|)] + tables + [""]
  }

  function Render(owner: string, tables: seq<string>): string {
    Text.Join(Lines(owner, tables), '\n')
  }

  /** The trimmed lines that say something and are not comments. */
  function Entries(lines: seq<string>): seq<string> {
    if lines == [] then [] else Entry(lines[0]) + Entries(lines[1..])
  }

  function Entry(line: string): seq<string> {
    var line := Text.Trim(line);
    if line != "" && line[0] != '#' then [line] else []
  }

  function Parse(text: string): seq<string> {
    Entries(Text.Split(text, '\n'))
  }

  /** A name that survives as a line of its own. */
  predicate IsPlain(name: string) {
    name != "" && Text.IsTrimmed(name) && '\n' !in name && name[0] != '#'
  }

  predicate AllPlain(names: seq<string>) {
    forall i :: 0 <= i < |names| ==> IsPlain(names[i])
  }

  lemma {:induction false} EntriesAppend(a: seq<string>, b: seq<string>)
    ensures Entries(a + b) == Entries(a) + Entries(b)
  {
    hide Entry;
    if a == [] {
      assert a + b == b;
    } else {
      EntriesAppend(a[1..], b);
      ConsAppend(a, b);
    }
  }

  lemma ConsAppend<T>(a: seq<T>, b: seq<T>)
    requires a != []
    ensures (a + b)[0] == a[0] && (a + b)[1..] == a[1..] + b
  {
  }

  lemma {:induction false} PlainEntries(names: seq<string>)
    requires AllPlain(names)
    ensures Entries(names) == names
  {
    hide Text.Trim;
    if names != [] {
      PlainEntries(names[1..]);
      Text.TrimIsTrimmed(names[0]);
      assert IsPlain(names[0]);
    }
  }

  lemma CommentEntries(line: string)
    requires line != "" && line[0] == '#'
    ensures Entries([line]) == []
  {
    hide Text.Trim;
    Text.CommentTrims(line);
    assert [line][1..] == [];
  }

  lemma HeaderEntries(owner: string, count: nat)
    ensures Entries([NOTICE, RECIPE, Heading(owner, count)]) == []
  {
    hide Entries, Text.Decimal;
    assert [NOTICE, RECIPE, Heading(owner, count)] == [NOTICE] + ([RECIPE] + [Heading(owner, count)]);
    EntriesAppend([NOTICE], [RECIPE] + [Heading(owner, count)]);
    EntriesAppend([RECIPE], [Heading(owner, count)]);
    NoticeIsComment();
    RecipeIsComment();
    CommentEntries(NOTICE);
    CommentEntries(RECIPE);
    CommentEntries(Heading(owner, count));
  }

  lemma HeaderHasNoNewline(owner: string, count: nat)
    requires '\n' !in owner
    ensures '\n' !in NOTICE && '\n' !in RECIPE && '\n' !in Heading(owner, count)
  {
    hide Text.Decimal;
    Text.DecimalReads(count);
    NoticeIsComment();
    RecipeIsComment();
  }

  lemma NoticeTail()
    ensures NOTICE == "# generated from boundaries/table-ownership.js" + "on — DO NOT EDIT BY HAND"
  {
  }

  lemma NoticeFront()
    ensures "# generated from boundaries/table-ownership.js" == "# generated from bounda" + "ries/table-ownership.js"
  {
  }

  lemma NoticePieces()
    ensures '\n' !in "# generated from bounda" && "# generated from bounda"[0] == '#'
    ensures '\n' !in "ries/table-ownership.js" && '\n' !in "on — DO NOT EDIT BY HAND"
  {
  }

  lemma NoticeIsComment()
    ensures '\n' !in NOTICE && NOTICE != "" && NOTICE[0] == '#'
  {
    NoticeTail();
    NoticeFront();
    NoticePieces();
  }

  lemma RecipeTail()
    ensures RECIPE == "# regenerate: npx tsx scripts/db-split/gener" + "ate-owner-table-lists.ts"
  {
  }

  lemma RecipeFront()
    ensures "# regenerate: npx tsx scripts/db-split/gener" == "# regenerate: npx tsx " + "scripts/db-split/gener"
  {
  }

  lemma RecipePieces()
    ensures '\n' !in "# regenerate: npx tsx " && "# regenerate: npx tsx "[0] == '#'
    ensures '\n' !in "scripts/db-split/gener" && '\n' !in "ate-owner-table-lists.ts"
  {
  }

  lemma RecipeIsComment()
    ensures '\n' !in RECIPE && RECIPE != "" && RECIPE[0] == '#'
  {
    RecipeTail();
    RecipeFront();
    RecipePieces();
  }

  /** Printing plain names and reading them back gives the same names. */
  lemma PlainRoundTrip(owner: string, tables: seq<string>)
    requires '\n' !in owner && AllPlain(tables)
    ensures Parse(Render(owner, tables)) == tables
  {
    hide Heading, Text.Trim, Text.Split, Text.Join, Entries;
    var header := [NOTICE, RECIPE, Heading(owner, |tables|)];
    HeaderHasNoNewline(owner, |tables|);
    assert forall i :: 0 <= i < |tables| ==> IsPlain(tables[i]);
    Text.SplitJoin(Lines(owner, tables), '\n');
    EntriesAppend(header + tables, [""]);
    EntriesAppend(header, tables);
    HeaderEntries(owner, |tables|);
    PlainEntries(tables);
    BlankEntries();
  }

  lemma BlankEntries()
    ensures Entries([""]) == []
  {
    hide Text.Trim;
    Text.TrimIsTrimmed("");
    assert [""][1..] == [];
  }

  lemma {:induction false} EntriesArePlain(lines: seq<string>)
    requires forall i :: 0 <= i < |lines| ==> '\n' !in lines[i]
    ensures AllPlain(Entries(lines))
  {
    hide Text.Trim;
    if lines != [] {
      EntriesArePlain(lines[1..]);
      Text.TrimIsTrimmed(lines[0]);
      Text.TrimKeeps(lines[0], '\n');
    }
  }

  /** Whatever the file holds, reading it yields plain names only. */
  lemma ParsedIsPlain(text: string)
    ensures AllPlain(Parse(text))
  {
    Text.SplitParts(text, '\n');
    EntriesArePlain(Text.Split(text, '\n'));
  }

  /** For an owner without a newline the round trip holds exactly for lists of plain names. */
  lemma RoundTripExactly(owner: string, tables: seq<string>)
    requires '\n' !in owner
    ensures Parse(Render(owner, tables)) == tables <==> AllPlain(tables)
  {
    hide Parse, Render, IsPlain;
    ParsedIsPlain(Render(owner, tables));
    if AllPlain(tables) {
      PlainRoundTrip(owner, tables);
    }
  }
}
