/** The near-copy guard: two texts are too close when the sets of their four-character runs overlap by half or more. */
module CopyGuard {

  const GRAM: nat := 4
  const MIN_LENGTH: nat := 6

  /** What lower-casing a character and keeping only letters, digits and CJK ideographs leaves of it. */
  function Kept(c: char): string {
    if 'A' <= c <= 'Z' then [(c as int + 32) as char]
    else if 'a' <= c <= 'z' || '0' <= c <= '9' || '\U{4E00}' <= c <= '\U{9FFF}' then [c]
    else if c == '\U{0130}' then "i"
    else if c == '\U{212A}' then "k"
    else ""
  }

  function Normalized(s: string): string {
    if s == [] then [] else Kept(s[0]) + Normalized(s[1..])
  }

  function GramAt(s: string, i: nat): string
    requires i + GRAM <= |s|
  {
    s[i..i + GRAM]
  }

  ghost function Grams(s: string): set<string> {
    GramsBefore(s, if |s| < GRAM then 0 else |s| - GRAM + 1)
  }

  /** The runs that start before a position. */
  ghost function GramsBefore(s: string, end: nat): set<string>
    requires end == 0 || end + GRAM - 1 <= |s|
  {
    set i: nat | i < end :: GramAt(s, i)
  }

  /** The definition of a near copy: enough text on both sides, and a Jaccard index of at least one half. */
  ghost predicate NearCopy(a: string, b: string) {
    var x, y := Normalized(a), Normalized(b);
    |x| >= 6 && |y| >= 6 && 2 * |Grams(x) * Grams(y)| >= |Grams(x) + Grams(y)|
  }

  ghost predicate CopiesAny(text: string, references: seq<string>) {
    exists i :: 0 <= i < |references| && NearCopy(text, references[i])
  }

  lemma UnionSize<T>(a: set<T>, b: set<T>)
    ensures |a + b| == |a| + |b| - |a * b|
  {
    assert a + b == a + (b - a);
    assert b == (b - a) + a * b;
  }

  /** The guard does not care which text is the reference. */
  lemma NearCopyIsSymmetric(a: string, b: string)
    ensures NearCopy(a, b) <==> NearCopy(b, a)
  {
    var x, y := Grams(Normalized(a)), Grams(Normalized(b));
    assert x * y == y * x;
    assert x + y == y + x;
  }

  lemma ConsConcat<T>(a: seq<T>, b: seq<T>)
    requires a != []
    ensures a + b != [] && (a + b)[0] == a[0] && (a + b)[1..] == a[1..] + b
  {
  }

  lemma Associates<T>(a: seq<T>, b: seq<T>, c: seq<T>)
    ensures a + (b + c) == (a + b) + c
  {
  }

  lemma {:induction false} NormalizedConcat(a: string, b: string)
    ensures Normalized(a + b) == Normalized(a) + Normalized(b)
  {
    hide Kept;
    if a == [] {
      assert a + b == b;
    } else {
      NormalizedConcat(a[1..], b);
      ConsConcat(a, b);
      Associates(Kept(a[0]), Normalized(a[1..]), Normalized(b));
    }
  }

  /** Two texts that differ only in case, spacing and punctuation are near copies whenever there is enough of them. */
  lemma SameWordsAreCaught(a: string, b: string)
    requires Normalized(a) == Normalized(b)
    ensures NearCopy(a, b) <==> |Normalized(a)| >= 6
  {
    var x := Grams(Normalized(a));
    assert x * x == x && x + x == x;
  }

  /** The runs are exactly the stretches of four consecutive characters. */
  lemma GramsAreRunsOfFour(s: string)
    ensures forall i, j :: 0 <= i && j == i + 4 && j <= |s| ==> s[i..j] in Grams(s)
    ensures forall g :: g in Grams(s) ==> exists i, j :: 0 <= i && j == i + 4 && j <= |s| && s[i..j] == g
  {
    forall i, j | 0 <= i && j == i + 4 && j <= |s| ensures s[i..j] in Grams(s) {
      assert GramAt(s, i) in Grams(s);
    }
  }

  /** Letters of the basic alphabet, digits and CJK ideographs; two other letters whose lower case begins with one of them. */
  predicate IsWordChar(c: char) {
    || 'A' <= c <= 'Z' || 'a' <= c <= 'z' || '0' <= c <= '9' || '\U{4E00}' <= c <= '\U{9FFF}'
    || c == '\U{0130}' || c == '\U{212A}'
  }

  /** A text of small letters, digits and ideographs is its own normal form. */
  lemma {:induction false} PlainTextIsNormal(s: string)
    requires forall i :: 0 <= i < |s| ==> IsWordChar(s[i]) && !('A' <= s[i] <= 'Z') && s[i] != '\U{0130}' && s[i] != '\U{212A}'
    ensures Normalized(s) == s
  {
    if s != [] {
      PlainTextIsNormal(s[1..]);
      assert [s[0]] + s[1..] == s;
    }
  }

  /** The second character is the first one or its lower case, for the two letters outside the basic alphabet as well. */
  predicate Lowers(c: char, d: char) {
    || c == d
    || ('A' <= c <= 'Z' && d as int == c as int + 32)
    || (c == '\U{0130}' && d == 'i')
    || (c == '\U{212A}' && d == 'k')
  }

  /** The two characters differ in case at most. */
  predicate SameButCase(c: char, d: char) {
    Lowers(c, d) || Lowers(d, c)
  }

  /** The case of letters never changes the verdict. */
  lemma CaseChangesNothing(a: string, a': string, b: string)
    requires |a| == |a'| && forall i :: 0 <= i < |a| ==> SameButCase(a[i], a'[i])
    ensures NearCopy(a, b) <==> NearCopy(a', b)
  {
    CaseVanishes(a, a');
    hide Normalized, Grams;
  }

  lemma {:induction false} CaseVanishes(a: string, a': string)
    requires |a| == |a'| && forall i :: 0 <= i < |a| ==> SameButCase(a[i], a'[i])
    ensures Normalized(a) == Normalized(a')
  {
    if a != [] {
      CaseVanishes(a[1..], a'[1..]);
      assert SameButCase(a[0], a'[0]);
    }
  }

  /** Characters that are no word characters, put anywhere into a text, never change the verdict. */
  lemma FillerChangesNothing(before: string, filler: string, after: string, b: string)
    requires forall i :: 0 <= i < |filler| ==> !IsWordChar(filler[i])
    ensures NearCopy(before + filler + after, b) <==> NearCopy(before + after, b)
  {
    hide Normalized, Grams;
    NormalizedConcat(before + filler, after);
    NormalizedConcat(before, filler);
    NormalizedConcat(before, after);
    FillerVanishes(filler);
    assert Normalized(before) + "" == Normalized(before);
  }

  lemma {:induction false} FillerVanishes(filler: string)
    requires forall i :: 0 <= i < |filler| ==> Kept(filler[i]) == ""
    ensures Normalized(filler) == ""
  {
    if filler != [] {
      FillerVanishes(filler[1..]);
    }
  }

  // ---------- the loops of the source ----------

  method CharNgrams(s: string) returns (grams: set<string>)
    ensures grams == Grams(s)
  {
    grams := {};
    var i := 0;
    while i + GRAM <= |s|
      invariant i == 0 || i + GRAM - 1 <= |s|
      invariant grams == GramsBefore(s, i)
    {
      grams := grams + {GramAt(s, i)};
      i := i + 1;
    }
  }

  method CountShared(ga: set<string>, gb: set<string>) returns (inter: nat)
    ensures inter == |ga * gb|
  {
    inter := 0;
    var todo := ga;
    while todo != {}
      invariant todo <= ga
      invariant inter == |(ga - todo) * gb|
      decreases |todo|
    {
      var g :| g in todo;
      SharedGrows(ga, todo, gb, g);
      if g in gb {
        inter := inter + 1;
      }
      todo := todo - {g};
    }
    assert ga - {} == ga;
  }

  lemma LongTextHasGrams(s: string)
    requires |s| >= GRAM
    ensures Grams(s) != {}
  {
    assert GramAt(s, 0) in Grams(s);
  }

  /** Counting the shared runs one by one decides exactly the definition. */
  method NearVerbatim(a: string, b: string) returns (near: bool)
    ensures near <==> NearCopy(a, b)
  {
    hide Normalized, Grams;
    var na, nb := Normalized(a), Normalized(b);
    if |na| < MIN_LENGTH || |nb| < MIN_LENGTH {
      return false;
    }
    var ga := CharNgrams(na);
    var gb := CharNgrams(nb);
    LongTextHasGrams(na);
    LongTextHasGrams(nb);
    near := false;
    if |ga| != 0 && |gb| != 0 {
      var inter := CountShared(ga, gb);
      var union := |ga| + |gb| - inter;
      UnionSize(ga, gb);
      SomeUnion(ga, gb);
      near := union > 0 && inter as real / union as real >= 0.5;
      HalfExactly(inter, union);
    }
  }

  lemma SomeUnion<T>(a: set<T>, b: set<T>)
    requires a != {}
    ensures |a + b| > 0
  {
    var x :| x in a;
    assert x in a + b;
  }

  lemma SharedGrows<T>(all: set<T>, todo: set<T>, other: set<T>, g: T)
    requires todo <= all && g in todo
    ensures |(all - (todo - {g})) * other| == |(all - todo) * other| + if g in other then 1 else 0
  {
    if g in other {
      assert (all - (todo - {g})) * other == (all - todo) * other + {g};
    } else {
      assert (all - (todo - {g})) * other == (all - todo) * other;
    }
  }

  lemma HalfExactly(inter: int, union: int)
    requires union > 0
    ensures inter as real / union as real >= 0.5 <==> 2 * inter >= union
  {
    var q := inter as real / union as real;
    assert q * union as real == inter as real;
    if q >= 0.5 {
      assert q * union as real >= 0.5 * union as real;
    } else {
      assert q * union as real < 0.5 * union as real;
    }
  }

  method OverlapsAny(text: string, references: seq<string>) returns (found: bool)
    ensures found <==> CopiesAny(text, references)
  {
    for k := 0 to |references|
      invariant forall i :: 0 <= i < k ==> !NearCopy(text, references[i])
    {
      var near := NearVerbatim(text, references[k]);
      if near {
        return true;
      }
    }
    return false;
  }
}
