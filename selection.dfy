/**
 * `selectionner_aliments`: the calorie-budget selector of one meal, as
 * specification functions. The forward loop takes one catalog row per drawn
 * category until the calorie condition holds; the removal pass then drops
 * the lowest-scored items until the total is within the maximum.
 */
module Selection {
  import opened Results
  import opened Draws
  import opened Foods
  import opened Preferences
  import opened QuantityModel

  /** What one call works on; `lo` and `hi` are the band already scaled by the calorie factor. */
  datatype MealInput = MealInput(
    eaterClass: string, prefs: PrefTable, catalog: seq<Food>,
    categories: seq<string>, meal: int, lo: real, hi: real)

  /** The state of the forward loop, with the next unread Python and numpy positions. */
  datatype Forward = Forward(items: seq<Item>, total: real, exceed: bool, py: nat, np: nat)

  /** One meal's selection and the next unread Python and numpy positions. */
  datatype MealResult = MealResult(items: seq<Item>, py: nat, np: nat)

  /** The break condition of the forward loop. */
  predicate Stop(total: real, exceed: bool, lo: real, hi: real) {
    total >= lo && (exceed || total <= hi)
  }

  /** Whether some item has a quantity of 10 or more. */
  predicate AnyLarge(items: seq<Item>) {
    exists j :: 0 <= j < |items| && items[j].quantity >= 10
  }

  /** The row `DataFrame.sample(n=1)` returns, for numpy outcome `u`, among the rows of category `c`. */
  function Pick(catalog: seq<Food>, c: string, u: Unit): (f: Food)
    requires OfCategory(catalog, c) != []
    ensures f in catalog && f.category == c
  {
    var rows := OfCategory(catalog, c);
    rows[Below(u, |rows|)]
  }

  /** Whether the loop condition holds once the first `n` items of `items` are taken. */
  predicate HaltsAfter(m: MealInput, exceed0: bool, items: seq<Item>, n: nat)
    requires n <= |items|
  {
    Stop(Total(items[..n]), exceed0 || AnyLarge(items[..n]), m.lo, m.hi)
  }

  /** What every state of the forward loop satisfies: one item per processed draw, in draw order. */
  predicate Consistent(m: MealInput, np: NumpyStream, np0: nat, exceed0: bool, st: Forward) {
    && |st.items| <= |m.categories|
    && st.np == np0 + |st.items|
    && st.total == Total(st.items)
    && st.exceed == (exceed0 || AnyLarge(st.items))
    && forall j :: 0 <= j < |st.items| ==>
         && OfCategory(m.catalog, m.categories[j]) != []
         && st.items[j].food == Pick(m.catalog, m.categories[j], np.picks(np0 + j))
         && st.items[j].meal == m.meal
  }

  /** The loop has not broken after any of the first `n` items. */
  predicate NoHalt(m: MealInput, exceed0: bool, items: seq<Item>, n: int)
    requires n <= |items|
  {
    forall k :: 1 <= k <= n ==> !HaltsAfter(m, exceed0, items, k)
  }

  /** The state before the loop: `exceed_max_calories` is the first Python draw below 0.3. */
  function Initial(py: Stream, pyPos: nat, npPos: nat): Forward {
    Forward([], 0.0, py(pyPos) < 0.3, pyPos + 1, npPos)
  }

  /** One iteration: sample a row of the next category, decide its quantity, accumulate. */
  function Step(m: MealInput, py: Stream, np: NumpyStream, st: Forward): (r: Result<Forward>)
    requires |st.items| < |m.categories|
    ensures r.Err? <==> OfCategory(m.catalog, m.categories[|st.items|]) == []
    ensures r.Err? ==> r.error == NoFoodOfType(m.categories[|st.items|])
    ensures r.Ok? ==> |r.value.items| == |st.items| + 1
    ensures r.Ok? ==>
      var it := r.value.items[|st.items|];
      && r.value.items == st.items + [it]
      && it.meal == m.meal
      && it.food == Pick(m.catalog, m.categories[|st.items|], np.picks(st.np))
      && r.value.total == st.total + Energy(it)
      && r.value.exceed == (st.exceed || it.quantity >= 10)
      && r.value.np == st.np + 1
    ensures r.Ok? ==>
      var d := Quantity(m.eaterClass, m.categories[|st.items|], py, st.py);
      && r.value.items[|st.items|].quantity == d.quantity
      && r.value.py == d.next
  {
    var c := m.categories[|st.items|];
    if OfCategory(m.catalog, c) == [] then Err(NoFoodOfType(c))
    else
      var food := Pick(m.catalog, c, np.picks(st.np));
      var d := Quantity(m.eaterClass, c, py, st.py);
      var it := Item(food, m.meal, d.quantity);
      Ok(Forward(st.items + [it], st.total + Energy(it), st.exceed || d.quantity >= 10, d.next, st.np + 1))
  }

  lemma AnyLargeAppend(items: seq<Item>, it: Item)
    ensures AnyLarge(items + [it]) == (AnyLarge(items) || it.quantity >= 10)
  {
    var next := items + [it];
    if it.quantity >= 10 {
      assert next[|items|].quantity >= 10;
    }
    if AnyLarge(next) && it.quantity < 10 {
      var j :| 0 <= j < |next| && next[j].quantity >= 10;
      assert j < |items| && items[j] == next[j];
    }
    if AnyLarge(items) {
      var j :| 0 <= j < |items| && items[j].quantity >= 10;
      assert next[j] == items[j];
    }
  }

  lemma StepConsistent(m: MealInput, py: Stream, np: NumpyStream, np0: nat, exceed0: bool, st: Forward)
    requires |st.items| < |m.categories|
    requires Consistent(m, np, np0, exceed0, st)
    requires Step(m, py, np, st).Ok?
    ensures Consistent(m, np, np0, exceed0, Step(m, py, np, st).value)
  {
    var next := Step(m, py, np, st).value;
    var i := |st.items|;
    var it := next.items[i];
    TotalAppend(st.items, it);
    AnyLargeAppend(st.items, it);
    forall j | 0 <= j < |next.items|
      ensures OfCategory(m.catalog, m.categories[j]) != []
      ensures next.items[j].food == Pick(m.catalog, m.categories[j], np.picks(np0 + j))
      ensures next.items[j].meal == m.meal
    {
      if j < i {
        assert next.items[j] == st.items[j];
      }
    }
  }

  /** The forward loop, from a state that has processed `|st.items|` categories. */
  function ForwardFrom(m: MealInput, py: Stream, np: NumpyStream, st: Forward): Result<Forward>
    requires |st.items| <= |m.categories|
    decreases |m.categories| - |st.items|
  {
    if |st.items| == |m.categories| then Ok(st)
    else match Step(m, py, np, st)
      case Err(e) => Err(e)
      case Ok(next) =>
        if Stop(next.total, next.exceed, m.lo, m.hi) then Ok(next) else ForwardFrom(m, py, np, next)
  }

  /** Every quantity the forward loop takes is an outcome of the quantity ladder. */
  lemma {:induction false} ForwardLadder(m: MealInput, py: Stream, np: NumpyStream, st: Forward)
    requires |st.items| <= |m.categories|
    requires forall j :: 0 <= j < |st.items| ==> Ladder(st.items[j].quantity)
    ensures var r := ForwardFrom(m, py, np, st);
      r.Ok? ==> forall j :: 0 <= j < |r.value.items| ==> Ladder(r.value.items[j].quantity)
    decreases |m.categories| - |st.items|
  {
    if |st.items| < |m.categories| {
      var s := Step(m, py, np, st);
      if s.Ok? {
        var next := s.value;
        forall j | 0 <= j < |next.items| ensures Ladder(next.items[j].quantity) {
          if j < |st.items| {
            assert next.items[j] == st.items[j];
          }
        }
        if Stop(next.total, next.exceed, m.lo, m.hi) {
          assert ForwardFrom(m, py, np, st) == Ok(next);
        } else {
          assert ForwardFrom(m, py, np, st) == ForwardFrom(m, py, np, next);
          ForwardLadder(m, py, np, next);
        }
      }
    }
  }

  /** A condition about the first `k` items survives extending the list. */
  lemma NoHaltExtend(m: MealInput, exceed0: bool, a: seq<Item>, b: seq<Item>, n: int)
    requires n <= |a| <= |b| && b[..|a|] == a
    requires NoHalt(m, exceed0, a, n)
    ensures NoHalt(m, exceed0, b, n)
  {
    forall k | 1 <= k <= n ensures !HaltsAfter(m, exceed0, b, k) {
      assert b[..k] == b[..|a|][..k];
      assert !HaltsAfter(m, exceed0, a, k);
    }
  }

  /** For a consistent state, halting after all its items is the loop condition on its total and flag. */
  lemma HaltsAfterAll(m: MealInput, np: NumpyStream, np0: nat, exceed0: bool, st: Forward)
    requires Consistent(m, np, np0, exceed0, st)
    ensures HaltsAfter(m, exceed0, st.items, |st.items|) == Stop(st.total, st.exceed, m.lo, m.hi)
  {
    assert st.items[..|st.items|] == st.items;
  }

  lemma {:induction false} ForwardSound(m: MealInput, py: Stream, np: NumpyStream, np0: nat, exceed0: bool, st: Forward)
    requires Consistent(m, np, np0, exceed0, st)
    requires NoHalt(m, exceed0, st.items, |st.items|)
    ensures var r := ForwardFrom(m, py, np, st);
      r.Ok? ==>
        && Consistent(m, np, np0, exceed0, r.value)
        && |st.items| <= |r.value.items|
        && r.value.items[..|st.items|] == st.items
        && r.value.py >= st.py
        && NoHalt(m, exceed0, r.value.items, |r.value.items| - 1)
        && (|r.value.items| < |m.categories| ==>
              |r.value.items| > |st.items| && Stop(r.value.total, r.value.exceed, m.lo, m.hi))
    ensures var r := ForwardFrom(m, py, np, st);
      r.Err? ==> exists j :: |st.items| <= j < |m.categories| && OfCategory(m.catalog, m.categories[j]) == []
                              && r.error == NoFoodOfType(m.categories[j])
    decreases |m.categories| - |st.items|
  {
    var i := |st.items|;
    if i == |m.categories| {
      assert ForwardFrom(m, py, np, st) == Ok(st);
      assert st.items[..i] == st.items;
      NoHaltExtend(m, exceed0, st.items, st.items, i - 1);
    } else {
      var s := Step(m, py, np, st);
      if s.Ok? {
        var next := s.value;
        StepConsistent(m, py, np, np0, exceed0, st);
        HaltsAfterAll(m, np, np0, exceed0, next);
        assert next.items[..i] == st.items;
        if Stop(next.total, next.exceed, m.lo, m.hi) {
          assert ForwardFrom(m, py, np, st) == Ok(next);
          NoHaltExtend(m, exceed0, st.items, next.items, i);
        } else {
          assert ForwardFrom(m, py, np, st) == ForwardFrom(m, py, np, next);
          NoHaltExtend(m, exceed0, st.items, next.items, i);
          assert NoHalt(m, exceed0, next.items, i + 1);
          ForwardSound(m, py, np, np0, exceed0, next);
          var r := ForwardFrom(m, py, np, next);
          if r.Ok? {
            assert r.value.items[..i] == st.items by {
              assert r.value.items[..i] == r.value.items[..i + 1][..i];
            }
          }
        }
      } else {
        assert ForwardFrom(m, py, np, st) == Err(NoFoodOfType(m.categories[i]));
      }
    }
  }

  /**
   * The forward loop from the start: one row per processed draw, in draw
   * order, the running total is the sum of calorie times quantity, the flag
   * is set exactly when the first coin allowed it or a quantity reached 10,
   * and the loop ran to the first index where the condition held, or to the
   * end of the draws. The only failure is a drawn category without rows.
   */
  lemma ForwardLoop(m: MealInput, py: Stream, pyPos: nat, np: NumpyStream, npPos: nat)
    ensures var r := ForwardFrom(m, py, np, Initial(py, pyPos, npPos));
            var exceed0 := py(pyPos) < 0.3;
      r.Ok? ==>
        && |r.value.items| <= |m.categories|
        && (forall j :: 0 <= j < |r.value.items| ==>
              && r.value.items[j].food.category == m.categories[j]
              && r.value.items[j].food in m.catalog
              && r.value.items[j].meal == m.meal)
        && (forall j :: 0 <= j < |r.value.items| ==>
              OfCategory(m.catalog, m.categories[j]) != [] &&
              r.value.items[j].food == Pick(m.catalog, m.categories[j], np.picks(npPos + j)))
        && r.value.total == Total(r.value.items)
        && r.value.exceed == (exceed0 || AnyLarge(r.value.items))
        && r.value.np == npPos + |r.value.items|
        && r.value.py > pyPos
        && (forall k :: 1 <= k < |r.value.items| ==> !HaltsAfter(m, exceed0, r.value.items, k))
        && (|r.value.items| < |m.categories| ==>
              |r.value.items| >= 1 && Stop(r.value.total, r.value.exceed, m.lo, m.hi))
    ensures var r := ForwardFrom(m, py, np, Initial(py, pyPos, npPos));
      r.Err? ==> exists j :: 0 <= j < |m.categories| && OfCategory(m.catalog, m.categories[j]) == []
                             && r.error == NoFoodOfType(m.categories[j])
  {
    var exceed0 := py(pyPos) < 0.3;
    var st := Initial(py, pyPos, npPos);
    ForwardSound(m, py, np, npPos, exceed0, st);
    var r := ForwardFrom(m, py, np, st);
    if r.Ok? {
      var f := r.value;
      assert f.items[..|f.items|] == f.items;
    }
  }

  lemma AllScoredPermutation(t: PrefTable, a: seq<Item>, b: seq<Item>)
    requires multiset(b) <= multiset(a)
    requires AllScored(t, a)
    ensures AllScored(t, b)
  {
    forall j | 0 <= j < |b| ensures Scored(t, b[j]) {
      assert b[j] in multiset(a);
      var k :| 0 <= k < |a| && a[k] == b[j];
    }
  }

  /** Popping the head of the sorted list leaves scored items, still sorted. */
  lemma RestScored(t: PrefTable, items: seq<Item>)
    requires items != [] && AllScored(t, items)
    ensures var sorted := SortByScore(t, items);
      && sorted != []
      && AllScored(t, sorted[1..])
      && SortedByScore(t, sorted[1..])
  {
    var sorted := SortByScore(t, items);
    SortSpec(t, items);
    assert sorted == [sorted[0]] + sorted[1..];
    AllScoredPermutation(t, items, sorted[1..]);
  }

  lemma SortKeepsTotal(t: PrefTable, items: seq<Item>)
    ensures Total(SortByScore(t, items)) == Total(items)
  {
    SortSpec(t, items);
  }

  /** Popping the head of the sorted list takes its energy off the total. */
  lemma RestTotal(t: PrefTable, items: seq<Item>)
    requires items != []
    ensures var sorted := SortByScore(t, items);
      sorted != [] && Total(sorted[1..]) == Total(items) - Energy(sorted[0])
  {
    var sorted := SortByScore(t, items);
    SortSpec(t, items);
    assert sorted == [sorted[0]] + sorted[1..];
  }

  /**
   * The removal pass once every item is known to be scored: while the total
   * exceeds `hi`, sort the selection by score, pop the head (popping an empty
   * list raises) and take its calories off the running total. Each sort
   * succeeds, since the list only loses items.
   */
  function PopWhile(t: PrefTable, items: seq<Item>, total: real, hi: real): (r: Result<seq<Item>>)
    requires AllScored(t, items)
    decreases |items|
  {
    if total <= hi then Ok(items)
    else if items == [] then Err(PopFromEmpty)
    else
      var sorted := SortByScore(t, items);
      RestScored(t, items);
      PopWhile(t, sorted[1..], total - Energy(sorted[0]), hi)
  }

  /** One round of `PopWhile`. */
  lemma PopOnce(t: PrefTable, items: seq<Item>, total: real, hi: real)
    requires AllScored(t, items) && items != [] && total > hi
    ensures var sorted := SortByScore(t, items);
      && sorted != [] && AllScored(t, sorted[1..])
      && PopWhile(t, items, total, hi) == PopWhile(t, sorted[1..], total - Energy(sorted[0]), hi)
  {
    RestScored(t, items);
  }

  /** With a faithful running total, the pass ends within `hi`. */
  lemma {:induction false} PopWhileWithin(t: PrefTable, items: seq<Item>, total: real, hi: real)
    requires total == Total(items) && AllScored(t, items)
    ensures var r := PopWhile(t, items, total, hi);
      r.Ok? ==> Total(r.value) <= hi
    decreases |items|
  {
    if total > hi && items != [] {
      var sorted := SortByScore(t, items);
      PopOnce(t, items, total, hi);
      RestTotal(t, items);
      PopWhileWithin(t, sorted[1..], total - Energy(sorted[0]), hi);
    }
  }

  /** A successful result keeps only items of `items`, each no more often than given. */
  predicate Kept(r: Result<seq<Item>>, items: seq<Item>) {
    r.Ok? ==> multiset(r.value) <= multiset(items)
  }

  /** The pass keeps only items it was given, each no more often than given. */
  lemma {:induction false} PopWhileKeeps(t: PrefTable, items: seq<Item>, total: real, hi: real)
    requires AllScored(t, items)
    ensures Kept(PopWhile(t, items, total, hi), items)
    decreases |items|
  {
    if total > hi && items != [] {
      var sorted := SortByScore(t, items);
      var rest := sorted[1..];
      RestSub(t, items);
      PopOnce(t, items, total, hi);
      PopWhileKeeps(t, rest, total - Energy(sorted[0]), hi);
      KeptTrans(PopWhile(t, rest, total - Energy(sorted[0]), hi), rest, items);
    }
  }

  lemma KeptTrans(r: Result<seq<Item>>, rest: seq<Item>, items: seq<Item>)
    requires Kept(r, rest) && multiset(rest) <= multiset(items)
    ensures Kept(r, items)
  {
  }

  /** Popping the head of the sorted list leaves items taken from the list. */
  lemma RestSub(t: PrefTable, items: seq<Item>)
    requires items != []
    ensures var sorted := SortByScore(t, items);
      sorted != [] && multiset(sorted[1..]) <= multiset(items)
  {
    var sorted := SortByScore(t, items);
    SortSpec(t, items);
    assert sorted == [sorted[0]] + sorted[1..];
  }

  /** With a faithful running total, the pass fails only by popping an empty list, which needs a negative `hi`. */
  lemma {:induction false} PopWhileFails(t: PrefTable, items: seq<Item>, total: real, hi: real)
    requires total == Total(items) && AllScored(t, items)
    ensures var r := PopWhile(t, items, total, hi);
      && (r.Err? ==> r.error == PopFromEmpty && hi < 0.0)
      && (hi >= 0.0 ==> r.Ok?)
    decreases |items|
  {
    if total > hi && items != [] {
      var sorted := SortByScore(t, items);
      PopOnce(t, items, total, hi);
      RestTotal(t, items);
      PopWhileFails(t, sorted[1..], total - Energy(sorted[0]), hi);
    }
  }

  /**
   * The removal pass: nothing happens when the total is within `hi`;
   * otherwise the first sort looks up every item's score in list order, so it
   * raises on the first unscored item, and the later rounds are `PopWhile`.
   */
  function RemoveFrom(t: PrefTable, items: seq<Item>, total: real, hi: real): Result<seq<Item>> {
    if total <= hi then Ok(items)
    else if !AllScored(t, items) then
      var it := Unscored(t, items).value;
      Err(MissingScore(it.food.category, it.meal))
    else PopWhile(t, items, total, hi)
  }

  /**
   * With a faithful running total, the removal pass leaves a total within `hi`
   * and keeps a sub-multiset of the selection. It raises a missing score
   * exactly when it runs on a list with an unscored item, and pops from an
   * empty list only when `hi` is negative.
   */
  lemma RemoveFromSpec(t: PrefTable, items: seq<Item>, total: real, hi: real)
    requires total == Total(items)
    ensures var r := RemoveFrom(t, items, total, hi);
      && (total <= hi ==> r == Ok(items))
      && (r.Ok? ==> Total(r.value) <= hi)
      && (r.Ok? ==> multiset(r.value) <= multiset(items))
      && (r.Err? ==> r.error == PopFromEmpty || r.error.MissingScore?)
      && ((r.Err? && r.error.MissingScore?) <==> total > hi && !AllScored(t, items))
      && (r == Err(PopFromEmpty) ==> hi < 0.0)
      && (hi >= 0.0 && AllScored(t, items) ==> r.Ok?)
  {
    if total > hi && AllScored(t, items) {
      PopWhileWithin(t, items, total, hi);
      PopWhileKeeps(t, items, total, hi);
      PopWhileFails(t, items, total, hi);
    }
  }

  /** One round of the removal pass, as the loop that carries it out sees it. */
  lemma RemoveOnce(t: PrefTable, items: seq<Item>, total: real, hi: real)
    requires total == Total(items) && total > hi && AllScored(t, items) && items != []
    ensures var sorted := SortByScore(t, items);
      && sorted != []
      && Total(sorted[1..]) == total - Energy(sorted[0])
      && RemoveFrom(t, items, total, hi) == RemoveFrom(t, sorted[1..], total - Energy(sorted[0]), hi)
  {
    var sorted := SortByScore(t, items);
    PopOnce(t, items, total, hi);
    RestTotal(t, items);
    var total' := total - Energy(sorted[0]);
    if total' > hi {
      assert RemoveFrom(t, sorted[1..], total', hi) == PopWhile(t, sorted[1..], total', hi);
    } else {
      assert PopWhile(t, sorted[1..], total', hi) == Ok(sorted[1..]);
    }
  }

  /** Popping heads of a list while the total exceeds `hi`, with no sorting. */
  function PopPrefix(s: seq<Item>, total: real, hi: real): Result<seq<Item>>
    decreases |s|
  {
    if total <= hi then Ok(s)
    else if s == [] then Err(PopFromEmpty)
    else PopPrefix(s[1..], total - Energy(s[0]), hi)
  }

  /** On a list already sorted by score every sort of the pass leaves it as it is. */
  lemma {:induction false} PopSorted(t: PrefTable, s: seq<Item>, total: real, hi: real)
    requires AllScored(t, s) && SortedByScore(t, s)
    ensures PopWhile(t, s, total, hi) == PopPrefix(s, total, hi)
    decreases |s|
  {
    if total > hi && s != [] {
      SortSorted(t, s);
      PopOnce(t, s, total, hi);
      assert SortedByScore(t, s[1..]);
      PopSorted(t, s[1..], total - Energy(s[0]), hi);
    }
  }

  /** Popping heads keeps the shortest suffix whose total is within `hi`. */
  lemma {:induction false} PrefixShape(s: seq<Item>, total: real, hi: real) returns (k: nat)
    requires total == Total(s) && total > hi
    requires PopPrefix(s, total, hi).Ok?
    ensures 1 <= k <= |s|
    ensures PopPrefix(s, total, hi).value == s[k..]
    ensures forall j :: 0 <= j < k ==> Total(s[j..]) > hi
    decreases |s|
  {
    var total' := total - Energy(s[0]);
    assert s[0..] == s;
    if total' <= hi {
      k := 1;
    } else {
      var k' := PrefixShape(s[1..], total', hi);
      k := k' + 1;
      assert s[1..][k'..] == s[k..];
      forall j | 1 <= j < k ensures Total(s[j..]) > hi {
        assert s[j..] == s[1..][j - 1..];
      }
    }
  }

  /**
   * Once the pass runs, it keeps a suffix of the selection sorted by score:
   * the first sort orders the list and every later sort leaves it as it is.
   * It removes the fewest items that bring the total within `hi`.
   */
  lemma PopShape(t: PrefTable, items: seq<Item>, total: real, hi: real) returns (k: nat)
    requires total == Total(items) && AllScored(t, items) && total > hi
    requires PopWhile(t, items, total, hi).Ok?
    ensures 1 <= k <= |items|
    ensures PopWhile(t, items, total, hi).value == SortByScore(t, items)[k..]
    ensures forall j :: 0 <= j < k ==> Total(SortByScore(t, items)[j..]) > hi
  {
    var sorted := SortByScore(t, items);
    var total' := total - Energy(sorted[0]);
    PopOnce(t, items, total, hi);
    RestScored(t, items);
    PopSorted(t, sorted[1..], total', hi);
    SortKeepsTotal(t, items);
    k := ShapeAfterFirst(PopWhile(t, items, total, hi), sorted, total, hi);
  }

  /** Popping heads after the first: the shape of `PrefixShape`, from the rest of the list. */
  lemma ShapeAfterFirst(r: Result<seq<Item>>, s: seq<Item>, total: real, hi: real) returns (k: nat)
    requires total == Total(s) && total > hi && s != []
    requires r == PopPrefix(s[1..], total - Energy(s[0]), hi) && r.Ok?
    ensures 1 <= k <= |s|
    ensures r.value == s[k..]
    ensures forall j :: 0 <= j < k ==> Total(s[j..]) > hi
  {
    assert PopPrefix(s, total, hi) == r;
    k := PrefixShape(s, total, hi);
  }

  /** The shape of a successful removal pass that had something to remove. */
  lemma RemovalShape(t: PrefTable, items: seq<Item>, total: real, hi: real) returns (k: nat)
    requires total == Total(items) && total > hi
    requires RemoveFrom(t, items, total, hi).Ok?
    ensures AllScored(t, items)
    ensures 1 <= k <= |items|
    ensures RemoveFrom(t, items, total, hi).value == SortByScore(t, items)[k..]
    ensures forall j :: 0 <= j < k ==> Total(SortByScore(t, items)[j..]) > hi
    ensures forall j, i :: 0 <= j < k && j <= i < |items| ==>
              Key(t, SortByScore(t, items)[j]) <= Key(t, SortByScore(t, items)[i])
  {
    k := PopShape(t, items, total, hi);
    SortSpec(t, items);
  }

  lemma ForwardTotal(m: MealInput, py: Stream, pyPos: nat, np: NumpyStream, npPos: nat)
    ensures var r := ForwardFrom(m, py, np, Initial(py, pyPos, npPos));
            r.Ok? ==> r.value.total == Total(r.value.items)
  {
    ForwardLoop(m, py, pyPos, np, npPos);
  }

  /** A sub-multiset of a list holds only elements of the list, and no more of them. */
  lemma SubMultiset(kept: seq<Item>, items: seq<Item>)
    requires multiset(kept) <= multiset(items)
    ensures |kept| <= |items|
    ensures forall j :: 0 <= j < |kept| ==> kept[j] in items
  {
    assert multiset(items) == multiset(kept) + (multiset(items) - multiset(kept));
    assert |multiset(kept)| <= |multiset(items)|;
    forall j | 0 <= j < |kept| ensures kept[j] in items {
      assert kept[j] in multiset(items);
    }
  }

  /** `selectionner_aliments`: the forward loop, then the removal pass when the flag is clear and the total too high. */
  function Select(m: MealInput, py: Stream, pyPos: nat, np: NumpyStream, npPos: nat): Result<MealResult> {
    match ForwardFrom(m, py, np, Initial(py, pyPos, npPos))
    case Err(e) => Err(e)
    case Ok(f) =>
      if !f.exceed && f.total > m.hi then
        match RemoveFrom(m.prefs, f.items, f.total, m.hi)
        case Err(e) => Err(e)
        case Ok(kept) => Ok(MealResult(kept, f.py, f.np))
      else Ok(MealResult(f.items, f.py, f.np))
  }

  /**
   * Every kept item is a catalog row of a drawn category, tagged with this
   * meal, with a quantity the ladder can produce, and no draw is read twice.
   */
  lemma SelectItems(m: MealInput, py: Stream, pyPos: nat, np: NumpyStream, npPos: nat)
    ensures var r := Select(m, py, pyPos, np, npPos);
      r.Ok? ==>
        && |r.value.items| <= |m.categories|
        && r.value.py > pyPos && npPos <= r.value.np <= npPos + |m.categories|
        && forall j :: 0 <= j < |r.value.items| ==>
             && r.value.items[j].meal == m.meal
             && r.value.items[j].food in m.catalog
             && r.value.items[j].food.category in m.categories
             && Ladder(r.value.items[j].quantity)
  {
    ForwardLoop(m, py, pyPos, np, npPos);
    ForwardLadder(m, py, np, Initial(py, pyPos, npPos));
    var fr := ForwardFrom(m, py, np, Initial(py, pyPos, npPos));
    if fr.Ok? {
      var f := fr.value;
      assert forall j :: 0 <= j < |f.items| ==> f.items[j].food.category in m.categories by {
        forall j | 0 <= j < |f.items| ensures f.items[j].food.category in m.categories {
          assert f.items[j].food.category == m.categories[j];
        }
      }
      if !f.exceed && f.total > m.hi {
        var rr := RemoveFrom(m.prefs, f.items, f.total, m.hi);
        RemoveFromSpec(m.prefs, f.items, f.total, m.hi);
        if rr.Ok? {
          SubMultiset(rr.value, f.items);
        }
      }
    }
  }

  /**
   * When overshoot was neither allowed by the first coin nor forced by a
   * large quantity, the kept calories are within the maximum.
   */
  lemma SelectWithinMax(m: MealInput, py: Stream, pyPos: nat, np: NumpyStream, npPos: nat)
    requires Select(m, py, pyPos, np, npPos).Ok?
    requires py(pyPos) >= 0.3
    requires !AnyLarge(Select(m, py, pyPos, np, npPos).value.items)
    ensures Total(Select(m, py, pyPos, np, npPos).value.items) <= m.hi
  {
    ForwardLoop(m, py, pyPos, np, npPos);
    var f := ForwardFrom(m, py, np, Initial(py, pyPos, npPos)).value;
    if !f.exceed && f.total > m.hi {
      RemoveFromSpec(m.prefs, f.items, f.total, m.hi);
    }
  }

  /**
   * The selector fails only on a drawn category without catalog rows, a
   * drawn category without a score for this meal, or a negative maximum.
   */
  lemma SelectSucceeds(m: MealInput, py: Stream, pyPos: nat, np: NumpyStream, npPos: nat)
    requires m.hi >= 0.0
    requires forall c :: c in m.categories ==> OfCategory(m.catalog, c) != []
    requires forall c :: c in m.categories ==> Score(m.prefs, c, m.meal).Some?
    ensures Select(m, py, pyPos, np, npPos).Ok?
  {
    ForwardLoop(m, py, pyPos, np, npPos);
    var fr := ForwardFrom(m, py, np, Initial(py, pyPos, npPos));
    if fr.Ok? {
      var f := fr.value;
      forall j | 0 <= j < |f.items| ensures Scored(m.prefs, f.items[j]) {
        assert f.items[j].food.category == m.categories[j];
      }
      RemoveFromSpec(m.prefs, f.items, f.total, m.hi);
    }
  }

  /**
   * When the loop stopped on its condition with the flag clear, on any draw
   * including the last, the removal pass does not run and the meal's calories
   * lie within [lo, hi].
   */
  lemma BandRespected(m: MealInput, py: Stream, pyPos: nat, np: NumpyStream, npPos: nat)
    requires ForwardFrom(m, py, np, Initial(py, pyPos, npPos)).Ok?
    requires var f := ForwardFrom(m, py, np, Initial(py, pyPos, npPos)).value;
             Stop(f.total, f.exceed, m.lo, m.hi) && !f.exceed
    ensures var f := ForwardFrom(m, py, np, Initial(py, pyPos, npPos)).value;
            Select(m, py, pyPos, np, npPos) == Ok(MealResult(f.items, f.py, f.np))
            && m.lo <= Total(f.items) <= m.hi
  {
    ForwardLoop(m, py, pyPos, np, npPos);
  }

  /**
   * A quantity of 10 or more sets the overshoot flag for good: the removal
   * pass does not run and the meal keeps every item the forward loop took.
   */
  lemma LargeQuantitySkipsRemoval(m: MealInput, py: Stream, pyPos: nat, np: NumpyStream, npPos: nat)
    requires ForwardFrom(m, py, np, Initial(py, pyPos, npPos)).Ok?
    requires AnyLarge(ForwardFrom(m, py, np, Initial(py, pyPos, npPos)).value.items)
    ensures var f := ForwardFrom(m, py, np, Initial(py, pyPos, npPos)).value;
            f.exceed && Select(m, py, pyPos, np, npPos) == Ok(MealResult(f.items, f.py, f.np))
  {
    ForwardLoop(m, py, pyPos, np, npPos);
  }

  /**
   * When every drawn category is a 'Types' value of the sheet and the sheet
   * has the meal's column, as the category draw guarantees, the score lookup
   * of the removal pass never raises.
   */
  lemma SelectNoMissingScore(m: MealInput, py: Stream, pyPos: nat, np: NumpyStream, npPos: nat)
    requires m.meal in m.prefs.columns
    requires forall c :: c in m.categories ==> exists i :: 0 <= i < |m.prefs.rows| && m.prefs.rows[i].category == c
    ensures Select(m, py, pyPos, np, npPos).Err? ==> !Select(m, py, pyPos, np, npPos).error.MissingScore?
  {
    SelectErrors(m, py, pyPos, np, npPos);
    forall c | c in m.categories ensures Score(m.prefs, c, m.meal).Some? {
      ScoreSpec(m.prefs, c, m.meal);
    }
  }

  /**
   * The selector raises only on a drawn category without catalog rows, on a
   * drawn category without a score for this meal, or on a pop from an empty
   * list, which needs a negative maximum.
   */
  lemma SelectErrors(m: MealInput, py: Stream, pyPos: nat, np: NumpyStream, npPos: nat)
    ensures var r := Select(m, py, pyPos, np, npPos);
      r.Err? ==>
        || (exists j :: 0 <= j < |m.categories| && OfCategory(m.catalog, m.categories[j]) == []
                        && r.error == NoFoodOfType(m.categories[j]))
        || (exists j :: 0 <= j < |m.categories| && r.error == MissingScore(m.categories[j], m.meal)
                        && Score(m.prefs, m.categories[j], m.meal).None?)
        || (r.error == PopFromEmpty && m.hi < 0.0)
  {
    ForwardLoop(m, py, pyPos, np, npPos);
    var fr := ForwardFrom(m, py, np, Initial(py, pyPos, npPos));
    if fr.Ok? {
      var f := fr.value;
      RemoveFromSpec(m.prefs, f.items, f.total, m.hi);
      if !f.exceed && f.total > m.hi && !AllScored(m.prefs, f.items) {
        var it := Unscored(m.prefs, f.items).value;
        var j :| 0 <= j < |f.items| && f.items[j] == it;
        assert it.food.category == m.categories[j];
      }
    }
  }
}
