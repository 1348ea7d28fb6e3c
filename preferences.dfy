/**
 * The per-class preference table and the ordering by preference score that
 * the removal pass of the selector uses.
 */
module Preferences {
  import opened Results
  import opened Foods

  /** A row of the preference sheet: its 'Types' cell and its 'Meal_<k>_avg' cells, by meal. */
  datatype PrefRow = PrefRow(category: string, averages: map<int, real>)

  /** The sheet: the meals that have a 'Meal_<k>_avg' column, and its rows. */
  datatype Sheet = Sheet(columns: set<int>, rows: seq<PrefRow>)

  /** Every row has a value in every column of the sheet, and in no other. */
  predicate Filled(s: Sheet) {
    forall i :: 0 <= i < |s.rows| ==> s.rows[i].averages.Keys == s.columns
  }

  type PrefTable = s: Sheet | Filled(s) witness Sheet({}, [])

  /** The index of the first row whose 'Types' cell is `c`. */
  function FirstRow(rows: seq<PrefRow>, c: string): Option<nat> {
    if rows == [] then None
    else if rows[0].category == c then Some(0)
    else match FirstRow(rows[1..], c)
      case None => None
      case Some(i) => Some(i + 1)
  }

  /** `FirstRow` finds a matching row with no match before it, and finds none only when no row matches. */
  lemma {:induction false} FirstRowSpec(rows: seq<PrefRow>, c: string)
    ensures var r := FirstRow(rows, c);
      && (r.Some? ==> r.value < |rows| && rows[r.value].category == c)
      && (r.Some? ==> forall j :: 0 <= j < r.value ==> rows[j].category != c)
      && (r.None? <==> forall j :: 0 <= j < |rows| ==> rows[j].category != c)
  {
    if rows != [] && rows[0].category != c {
      FirstRowSpec(rows[1..], c);
      assert forall j :: 1 <= j < |rows| ==> rows[j] == rows[1..][j - 1];
    }
  }

  /**
   * `probabilite_aliment`: the 'Meal_<meal>_avg' value of the first row whose
   * 'Types' cell is `c`. None where pandas raises: a `KeyError` when the sheet
   * has no such column, an `IndexError` when no row has that type.
   */
  function Score(t: PrefTable, c: string, meal: int): Option<real> {
    if meal !in t.columns then None
    else match FirstRow(t.rows, c)
      case None => None
      case Some(i) => if i < |t.rows| then Some(t.rows[i].averages[meal]) else None
  }

  /**
   * A score is found exactly when the sheet has the meal's column and some row
   * has category `c`, and it is the value of the first row of that category.
   */
  lemma ScoreSpec(t: PrefTable, c: string, meal: int)
    ensures Score(t, c, meal).Some? <==>
      meal in t.columns && exists i :: 0 <= i < |t.rows| && t.rows[i].category == c
    ensures forall i ::
      (0 <= i < |t.rows| && t.rows[i].category == c && meal in t.columns &&
       forall j :: 0 <= j < i ==> t.rows[j].category != c) ==>
      Score(t, c, meal) == Some(t.rows[i].averages[meal])
  {
    FirstRowSpec(t.rows, c);
  }

  predicate Scored(t: PrefTable, it: Item) {
    Score(t, it.food.category, it.meal).Some?
  }

  predicate AllScored(t: PrefTable, items: seq<Item>) {
    forall j {:trigger Scored(t, items[j])} :: 0 <= j < |items| ==> Scored(t, items[j])
  }

  /** The first item, in list order, whose score lookup fails. */
  function Unscored(t: PrefTable, items: seq<Item>): (r: Option<Item>)
    ensures r.None? <==> AllScored(t, items)
    ensures r.Some? ==> r.value in items && !Scored(t, r.value)
  {
    if items == [] then None
    else if !Scored(t, items[0]) then Some(items[0])
    else
      var r := Unscored(t, items[1..]);
      assert r.None? ==> AllScored(t, items) by {
        if r.None? {
          forall j | 0 <= j < |items| ensures Scored(t, items[j]) {
            if j > 0 { assert items[j] == items[1..][j - 1]; }
          }
        }
      }
      r
  }

  /** The sort key of an item; only consulted when every item is scored. */
  function Key(t: PrefTable, it: Item): real {
    match Score(t, it.food.category, it.meal)
    case Some(v) => v
    case None => 0.0
  }

  predicate SortedByScore(t: PrefTable, s: seq<Item>) {
    forall i, j :: 0 <= i < j < |s| ==> Key(t, s[i]) <= Key(t, s[j])
  }

  /** Stable insertion: `x` goes before the first element whose key is at least its own. */
  function Insert(t: PrefTable, x: Item, s: seq<Item>): (r: seq<Item>)
    ensures |r| == |s| + 1
  {
    if s == [] || Key(t, x) <= Key(t, s[0]) then [x] + s
    else [s[0]] + Insert(t, x, s[1..])
  }

  /** Insertion adds exactly `x`. */
  lemma {:induction false} InsertPerm(t: PrefTable, x: Item, s: seq<Item>)
    ensures multiset(Insert(t, x, s)) == multiset(s) + multiset{x}
  {
    if s != [] && Key(t, s[0]) < Key(t, x) {
      InsertPerm(t, x, s[1..]);
      assert s == [s[0]] + s[1..];
    }
  }

  lemma {:induction false} InsertTotal(t: PrefTable, x: Item, s: seq<Item>)
    ensures Total(Insert(t, x, s)) == Energy(x) + Total(s)
  {
    if s != [] && Key(t, s[0]) < Key(t, x) {
      InsertTotal(t, x, s[1..]);
    }
  }

  /** A bound below the keys of `x` and of all of `s` stays below the keys of the insertion. */
  lemma {:induction false} InsertBound(t: PrefTable, x: Item, s: seq<Item>, v: real)
    requires v <= Key(t, x)
    requires forall k :: 0 <= k < |s| ==> v <= Key(t, s[k])
    ensures forall k :: 0 <= k < |s| + 1 ==> v <= Key(t, Insert(t, x, s)[k])
  {
    if s != [] && Key(t, s[0]) < Key(t, x) {
      InsertBound(t, x, s[1..], v);
    }
  }

  lemma {:induction false} InsertSorted(t: PrefTable, x: Item, s: seq<Item>)
    requires SortedByScore(t, s)
    ensures SortedByScore(t, Insert(t, x, s))
  {
    if s != [] && Key(t, s[0]) < Key(t, x) {
      InsertSorted(t, x, s[1..]);
      InsertBound(t, x, s[1..], Key(t, s[0]));
    }
  }

  /** `list.sort(key=...)`: a stable sort by preference score, ascending. */
  function SortByScore(t: PrefTable, s: seq<Item>): (r: seq<Item>)
    ensures |r| == |s|
  {
    if s == [] then [] else Insert(t, s[0], SortByScore(t, s[1..]))
  }

  /** The sort is a permutation, keeps the calorie total and orders the list by score. */
  lemma {:induction false} SortSpec(t: PrefTable, s: seq<Item>)
    ensures multiset(SortByScore(t, s)) == multiset(s)
    ensures Total(SortByScore(t, s)) == Total(s)
    ensures SortedByScore(t, SortByScore(t, s))
  {
    if s != [] {
      assert s == [s[0]] + s[1..];
      var rest := SortByScore(t, s[1..]);
      SortSpec(t, s[1..]);
      InsertPerm(t, s[0], rest);
      InsertTotal(t, s[0], rest);
      InsertSorted(t, s[0], rest);
    }
  }

  /** Sorting a list that is already sorted leaves it as it is. */
  lemma {:induction false} SortSorted(t: PrefTable, s: seq<Item>)
    requires SortedByScore(t, s)
    ensures SortByScore(t, s) == s
  {
    if s != [] {
      assert SortedByScore(t, s[1..]);
      SortSorted(t, s[1..]);
      assert s == [s[0]] + s[1..];
    }
  }

  /** The items of `s` whose key is `v`, in list order. */
  function WithKey(t: PrefTable, s: seq<Item>, v: real): seq<Item> {
    if s == [] then [] else (if Key(t, s[0]) == v then [s[0]] else []) + WithKey(t, s[1..], v)
  }

  /** Insertion puts `x` before every element of `s` with the same key. */
  lemma {:induction false} InsertWithKey(t: PrefTable, x: Item, s: seq<Item>, v: real)
    ensures WithKey(t, Insert(t, x, s), v) == (if Key(t, x) == v then [x] else []) + WithKey(t, s, v)
  {
    if s != [] && Key(t, s[0]) < Key(t, x) {
      InsertWithKey(t, x, s[1..], v);
      assert ([s[0]] + Insert(t, x, s[1..]))[1..] == Insert(t, x, s[1..]);
    } else {
      assert ([x] + s)[1..] == s;
    }
  }

  /**
   * The sort is stable: for every score, the items with that score keep the
   * relative order they had in the list.
   */
  lemma {:induction false} SortStable(t: PrefTable, s: seq<Item>, v: real)
    ensures WithKey(t, SortByScore(t, s), v) == WithKey(t, s, v)
  {
    if s != [] {
      SortStable(t, s[1..], v);
      InsertWithKey(t, s[0], SortByScore(t, s[1..]), v);
    }
  }
}
