/** Cell values of one table column and the two orders the visualizer derives from a column:
    the distinct values in first-seen order (what `unique()` returns) and the sorted group keys
    (what a group-by with its default sorting iterates over). */
module Cells {

  /** One cell of a loaded table: a number, a text, or a missing value (NaN). */
  datatype Cell = Missing | Num(x: real) | Text(s: string)

  /** The set of values that occur in `s`. */
  function Elements(s: seq<Cell>): (r: set<Cell>)
    ensures forall c :: c in r <==> c in s
  {
    set i | 0 <= i < |s| :: s[i]
  }

  /** No value occurs twice in `s`. */
  ghost predicate Distinct(s: seq<Cell>)
  {
    forall i, j :: 0 <= i < j < |s| ==> s[i] != s[j]
  }

  /** `r` lists values of `s` in the order in which they first occur in `s`: whatever `r` puts
      before a value has already been seen at every position of `s` where that value occurs. */
  ghost predicate FirstSeenOrder(s: seq<Cell>, r: seq<Cell>)
  {
    forall i, j, q :: 0 <= i < j < |r| && 0 <= q < |s| && s[q] == r[j] ==> r[i] in s[..q]
  }

  /** The distinct values of a column in first-seen order; a missing value is one value too. */
  function Unique(s: seq<Cell>): (r: seq<Cell>)
    ensures Distinct(r)
    ensures forall c :: c in r <==> c in s
    ensures FirstSeenOrder(s, r)
    ensures |r| <= |s|
  {
    if s == [] then []
    else
      var p := s[..|s| - 1];
      var u := Unique(p);
      var last := s[|s| - 1];
      assert forall q :: 0 <= q < |p| ==> s[..q] == p[..q];
      if last in u then u else u + [last]
  }

  /** A sequence without repetitions has as many elements as its set of values. */
  lemma {:induction false} DistinctCardinality(r: seq<Cell>)
    requires Distinct(r)
    ensures |Elements(r)| == |r|
  {
    if r != [] {
      var p := r[..|r| - 1];
      DistinctCardinality(p);
      assert Elements(r) == Elements(p) + {r[|r| - 1]};
      assert r[|r| - 1] !in Elements(p);
    }
  }

  /** The number of distinct values of a column, `len(column.unique())`. */
  function DistinctCount(s: seq<Cell>): (k: nat)
    ensures k == |Elements(s)|
  {
    DistinctCardinality(Unique(s));
    assert Elements(Unique(s)) == Elements(s);
    |Unique(s)|
  }

  /** The cells of `s` that are not missing; the group-by reads only which values they are. */
  function Present(s: seq<Cell>): (r: seq<Cell>)
    ensures forall c :: c in r <==> c in s && c != Missing
  {
    if s == [] then []
    else (if s[0] == Missing then [] else [s[0]]) + Present(s[1..])
  }

  // Ordering of group keys

  /** Python's text comparison: lexicographic by code point, a proper prefix first. */
  predicate TextLess(s: string, t: string)
  {
    if |s| == 0 then |t| > 0
    else if |t| == 0 then false
    else s[0] < t[0] || (s[0] == t[0] && TextLess(s[1..], t[1..]))
  }

  lemma {:induction false} TextLessIrreflexive(s: string)
    ensures !TextLess(s, s)
  {
    if |s| > 0 { TextLessIrreflexive(s[1..]); }
  }

  lemma {:induction false} TextLessTransitive(s: string, t: string, u: string)
    requires TextLess(s, t) && TextLess(t, u)
    ensures TextLess(s, u)
  {
    if |s| > 0 && |t| > 0 && |u| > 0 && s[0] == t[0] == u[0] {
      TextLessTransitive(s[1..], t[1..], u[1..]);
    }
  }

  lemma {:induction false} TextLessTotal(s: string, t: string)
    requires s != t
    ensures TextLess(s, t) || TextLess(t, s)
  {
    if |s| > 0 && |t| > 0 && s[0] == t[0] {
      assert s == [s[0]] + s[1..] && t == [t[0]] + t[1..];
      TextLessTotal(s[1..], t[1..]);
    }
  }

  /** The order in which a sorting group-by lists its keys: numbers by value, texts by
      `TextLess`, and numbers before texts (the mixed-type rule of the table library's sort).
      Missing values are never keys. */
  predicate KeyLess(a: Cell, b: Cell)
  {
    match (a, b)
    case (Num(x), Num(y)) => x < y
    case (Num(_), Text(_)) => true
    case (Text(s), Text(t)) => TextLess(s, t)
    case _ => false
  }

  lemma KeyLessIrreflexive(a: Cell)
    ensures !KeyLess(a, a)
  {
    if a.Text? { TextLessIrreflexive(a.s); }
  }

  lemma KeyLessTransitive(a: Cell, b: Cell, c: Cell)
    requires KeyLess(a, b) && KeyLess(b, c)
    ensures KeyLess(a, c)
  {
    if a.Text? && b.Text? && c.Text? { TextLessTransitive(a.s, b.s, c.s); }
  }

  lemma KeyLessTotal(a: Cell, b: Cell)
    requires a != Missing && b != Missing && a != b
    ensures KeyLess(a, b) || KeyLess(b, a)
  {
    if a.Text? && b.Text? { TextLessTotal(a.s, b.s); }
  }

  ghost predicate StrictlySorted(s: seq<Cell>)
  {
    forall i, j :: 0 <= i < j < |s| ==> KeyLess(s[i], s[j])
  }

  /** Insert a new key into a strictly sorted list of keys. */
  function Insert(k: Cell, s: seq<Cell>): (r: seq<Cell>)
    requires k != Missing && Missing !in s && k !in s
    requires StrictlySorted(s)
    ensures StrictlySorted(r)
    ensures forall c :: c in r <==> c == k || c in s
    ensures |r| == |s| + 1
  {
    if s == [] then [k]
    else if KeyLess(k, s[0]) then
      forall j | 0 <= j < |s| ensures KeyLess(k, s[j]) {
        if j > 0 { KeyLessTransitive(k, s[0], s[j]); }
      }
      [k] + s
    else
      KeyLessTotal(k, s[0]);
      var t := Insert(k, s[1..]);
      assert forall c :: c in t ==> KeyLess(s[0], c);
      [s[0]] + t
  }

  /** Sort distinct keys into increasing `KeyLess` order. */
  function SortKeys(s: seq<Cell>): (r: seq<Cell>)
    requires Missing !in s && Distinct(s)
    ensures StrictlySorted(r)
    ensures forall c :: c in r <==> c in s
    ensures |r| == |s|
  {
    if s == [] then [] else Insert(s[0], SortKeys(s[1..]))
  }

  /** The keys a sorting, missing-dropping group-by of a column iterates over, in that order. */
  function GroupKeys(s: seq<Cell>): (r: seq<Cell>)
    ensures StrictlySorted(r)
    ensures forall c :: c in r <==> c in s && c != Missing
  {
    SortKeys(Unique(Present(s)))
  }

  /** The first-seen labels and the sorted group keys of a column agree in number exactly when
      the column has no missing value; a missing value adds a label without a group. */
  lemma LabelCount(s: seq<Cell>)
    ensures |Unique(s)| == |GroupKeys(s)| + (if Missing in s then 1 else 0)
  {
    var e := Elements(s);
    UniqueCount(s);
    GroupKeysCount(s);
    if Missing in s {
      assert e == (e - {Missing}) + {Missing};
    } else {
      assert e == e - {Missing};
    }
  }

  /** A column has as many first-seen labels as distinct values. */
  lemma UniqueCount(s: seq<Cell>)
    ensures |Unique(s)| == |Elements(s)|
  {
    DistinctCardinality(Unique(s));
    assert Elements(Unique(s)) == Elements(s);
  }

  /** A column has as many group keys as distinct values that are not missing. */
  lemma GroupKeysCount(s: seq<Cell>)
    ensures |GroupKeys(s)| == |Elements(s) - {Missing}|
  {
    var u := Unique(Present(s));
    assert |GroupKeys(s)| == |u|;
    UniqueCount(Present(s));
    assert Elements(Present(s)) == Elements(s) - {Missing};
  }

  /** The two orders are different orders: a column whose texts first appear out of sorted order
      gets its labels and its group keys in opposite orders. */
  lemma LabelsAndGroupsCanDisagree()
    ensures Unique([Text("b"), Text("a")]) == [Text("b"), Text("a")]
    ensures GroupKeys([Text("b"), Text("a")]) == [Text("a"), Text("b")]
  {
    var a, b := Text("a"), Text("b");
    var s := [b, a];
    assert s[..1] == [b];
    assert [b][..0] == [];
    assert Unique([b]) == [b];
    assert Unique(s) == s;
    assert Present([a]) == [a];
    assert Present(s) == s;
    assert TextLess("a", "b");
    assert SortKeys([a]) == [a];
    assert Insert(b, [a]) == [a, b];
    assert SortKeys(s) == [a, b];
  }
}
