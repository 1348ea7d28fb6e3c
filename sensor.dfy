/**
 * One simulated day of one user (`User.generer_heures_connexion`,
 * `simulate_daily_activity`, `get_daily_activity`) as specification
 * functions, and the `User` object whose methods carry out the same loops
 * and are proved equal to them.
 *
 * Times are whole minutes counted from midnight of day 0 of the proleptic
 * calendar, so that date `day` (its ordinal) at `hh:mm` is
 * `day * 1440 + hh * 60 + mm`.
 */
module Sensor {
  import opened Results
  import opened Draws
  import opened Foods
  import opened Preferences
  import opened QuantityModel
  import opened Registry
  import opened Selection

  const MinutesPerDay: int := 1440

  /** `datetime.combine(business_date, hh:mm)`, in minutes. */
  function Nominal(day: int, minuteOfDay: int): int {
    day * MinutesPerDay + minuteOfDay
  }

  /** The largest delay, in minutes, of a connection after its nominal time. */
  function MaxDelay(eaterClass: string): int {
    if eaterClass == "random" then 300 else 60
  }

  /** The `randint` variation of one connection, in minutes. */
  function Variation(eaterClass: string, u: Unit): (d: int)
    ensures -60 <= d <= MaxDelay(eaterClass)
  {
    RandInt(u, -60, MaxDelay(eaterClass))
  }

  /** A generated connection: the meal number and its time. */
  datatype Connection = Connection(meal: int, time: int)

  /** The connection of the k-th scheduled meal: its nominal time plus the variation the k-th draw gives. */
  function Connect(p: Profile, day: int, py: Stream, k: nat): (c: Connection)
    requires k < |p.schedule|
    ensures c.meal == p.schedule[k].meal
    ensures Nominal(day, p.schedule[k].minute) - 60 <= c.time <= Nominal(day, p.schedule[k].minute) + MaxDelay(p.eaterClass)
  {
    Connection(p.schedule[k].meal, Nominal(day, p.schedule[k].minute) + Variation(p.eaterClass, py(k)))
  }

  /**
   * `generer_heures_connexion`: one connection per scheduled meal, in
   * schedule order; the k-th reads the k-th draw of the Python stream.
   */
  function MealTimes(p: Profile, day: int, py: Stream): (r: seq<Connection>)
    ensures |r| == |p.schedule|
    ensures forall k :: 0 <= k < |r| ==>
      && r[k].meal == p.schedule[k].meal
      && Nominal(day, p.schedule[k].minute) - 60 <= r[k].time <= Nominal(day, p.schedule[k].minute) + MaxDelay(p.eaterClass)
  {
    seq(|p.schedule|, k requires 0 <= k < |p.schedule| => Connect(p, day, py, k))
  }

  /** Every delay of the window is produced by some stream: the bounds above are tight. */
  lemma MealTimeReachable(p: Profile, day: int, k: nat, delay: int) returns (py: Stream)
    requires k < |p.schedule|
    requires -60 <= delay <= MaxDelay(p.eaterClass)
    ensures MealTimes(p, day, py)[k].time == Nominal(day, p.schedule[k].minute) + delay
  {
    var u := RandIntReaches(-60, MaxDelay(p.eaterClass), delay);
    py := (i: nat) => u;
  }

  /** One row of the food log: 'user_id', 'meal_id', 'heure_repas', 'aliment_id', 'quantity'. */
  datatype LogRow = LogRow(userId: int, mealId: int, time: int, foodId: int, quantity: int)

  /** What `selectionner_aliments` is called with for one meal: the band scaled by the calorie factor. */
  function MealInputOf(p: Profile, catalog: seq<Food>, categories: seq<string>, meal: int, b: Band): (m: MealInput)
    ensures m.lo == b.min as real * CalorieFactor(p.sex) && m.hi == b.max as real * CalorieFactor(p.sex)
    ensures m.meal == meal && m.categories == categories && m.catalog == catalog
    ensures m.prefs == p.prefs && m.eaterClass == p.eaterClass
  {
    var f := CalorieFactor(p.sex);
    MealInput(p.eaterClass, p.prefs, catalog, categories, meal, b.min as real * f, b.max as real * f)
  }

  /** The meals of a day that completed, and the error that ended the day early, if any. */
  datatype DayRun = DayRun(selections: seq<seq<Item>>, failure: Option<Error>)

  /**
   * The meal loop of `simulate_daily_activity` from connection `times[0]` on,
   * with the next unread Python and numpy positions. Each meal first draws its
   * categories from numpy, then looks up its band (a missing one raises),
   * then runs the selector.
   */
  function DayFrom(p: Profile, catalog: seq<Food>, times: seq<Connection>,
                   py: Stream, pyPos: nat, np: NumpyStream, npPos: nat): (r: DayRun)
    ensures |r.selections| <= |times|
    ensures r.failure.None? ==> |r.selections| == |times|
    decreases |times|
  {
    if times == [] then DayRun([], None)
    else
      var meal := times[0].meal;
      var categories := np.categories(npPos);
      if meal !in p.bands then DayRun([], Some(MissingBand(meal)))
      else
        match Select(MealInputOf(p, catalog, categories, meal, p.bands[meal]), py, pyPos, np, npPos + 1)
        case Err(e) => DayRun([], Some(e))
        case Ok(res) =>
          var rest := DayFrom(p, catalog, times[1..], py, res.py, np, res.np);
          DayRun([res.items] + rest.selections, rest.failure)
  }

  /** The Python stream of a day: line 54 re-seeds it with the profile's own id. */
  function PyStream(p: Profile, day: int, pyGen: int -> Stream): Stream {
    pyGen(day + p.userId)
  }

  /** The numpy stream of a day: seeded with the date and the `user_id` argument. */
  function NpStream(userId: int, day: int, npGen: int -> NumpyStream): NumpyStream {
    npGen(day + userId)
  }

  /** The meals of one day: the connections use the first Python draws, the meals the rest. */
  function Day(p: Profile, userId: int, day: int, catalog: seq<Food>,
               pyGen: int -> Stream, npGen: int -> NumpyStream): DayRun
  {
    var py := PyStream(p, day, pyGen);
    var times := MealTimes(p, day, py);
    DayFrom(p, catalog, times, py, |times|, NpStream(userId, day, npGen), 0)
  }

  /** The items of several meals, in meal order. */
  function Flatten(selections: seq<seq<Item>>): seq<Item> {
    if selections == [] then []
    else Flatten(selections[..|selections| - 1]) + selections[|selections| - 1]
  }

  /** The log rows of one meal: one per item, stamped with the meal's connection. */
  function MealRows(userId: int, c: Connection, items: seq<Item>): seq<LogRow> {
    seq(|items|, j requires 0 <= j < |items| => LogRow(userId, c.meal, c.time, items[j].food.id, items[j].quantity))
  }

  /** The log rows of the first `|selections|` meals. */
  function Rows(userId: int, times: seq<Connection>, selections: seq<seq<Item>>): seq<LogRow>
    requires |selections| <= |times|
  {
    if selections == [] then []
    else Rows(userId, times, selections[..|selections| - 1])
         + MealRows(userId, times[|selections| - 1], selections[|selections| - 1])
  }

  /** What `simulate_daily_activity` returns: the day's log, or the error it raised. */
  function DailyLog(p: Profile, userId: int, day: int, catalog: seq<Food>,
                    pyGen: int -> Stream, npGen: int -> NumpyStream): Result<seq<LogRow>>
  {
    var times := MealTimes(p, day, PyStream(p, day, pyGen));
    var run := Day(p, userId, day, catalog, pyGen, npGen);
    match run.failure
    case Some(e) => Err(e)
    case None => Ok(Rows(userId, times, run.selections))
  }

  /** The five columns of `get_daily_activity`'s dictionary. */
  datatype Columns = Columns(userId: seq<int>, mealId: seq<int>, time: seq<int>, foodId: seq<int>, quantity: seq<int>)

  function ColumnsOf(rows: seq<LogRow>): Columns {
    Columns(seq(|rows|, i requires 0 <= i < |rows| => rows[i].userId),
            seq(|rows|, i requires 0 <= i < |rows| => rows[i].mealId),
            seq(|rows|, i requires 0 <= i < |rows| => rows[i].time),
            seq(|rows|, i requires 0 <= i < |rows| => rows[i].foodId),
            seq(|rows|, i requires 0 <= i < |rows| => rows[i].quantity))
  }

  /** The rows a set of columns of one length holds, read across. */
  function Zip(c: Columns): seq<LogRow>
    requires |c.mealId| == |c.userId| && |c.time| == |c.userId|
    requires |c.foodId| == |c.userId| && |c.quantity| == |c.userId|
  {
    seq(|c.userId|, i requires 0 <= i < |c.userId| =>
      LogRow(c.userId[i], c.mealId[i], c.time[i], c.foodId[i], c.quantity[i]))
  }

  /** The columns have one entry per row, and reading them across gives the rows back. */
  lemma ColumnsRoundTrip(rows: seq<LogRow>)
    ensures var c := ColumnsOf(rows);
      && |c.userId| == |rows| && |c.mealId| == |rows| && |c.time| == |rows|
      && |c.foodId| == |rows| && |c.quantity| == |rows|
      && Zip(c) == rows
  {
  }

  /** What `get_daily_activity` returns. */
  function DailyColumns(p: Profile, userId: int, day: int, catalog: seq<Food>,
                        pyGen: int -> Stream, npGen: int -> NumpyStream): Result<Columns>
  {
    match DailyLog(p, userId, day, catalog, pyGen, npGen)
    case Err(e) => Err(e)
    case Ok(rows) => Ok(ColumnsOf(rows))
  }

  // ---------------------------------------------------------------------------
  // Properties of a day
  // ---------------------------------------------------------------------------

  lemma FlattenAppend(selections: seq<seq<Item>>, x: seq<Item>)
    ensures Flatten(selections + [x]) == Flatten(selections) + x
  {
    assert (selections + [x])[..|selections|] == selections;
  }

  lemma {:induction false} FlattenPrepend(x: seq<Item>, selections: seq<seq<Item>>)
    ensures Flatten([x] + selections) == x + Flatten(selections)
    decreases |selections|
  {
    if selections == [] {
      assert [x] + selections == [] + [x];
      FlattenAppend([], x);
    } else {
      var init := selections[..|selections| - 1];
      var last := selections[|selections| - 1];
      assert [x] + selections == ([x] + init) + [last];
      FlattenAppend([x] + init, last);
      FlattenPrepend(x, init);
      FlattenAppend(init, last);
      assert selections == init + [last];
    }
  }

  /** Every item is a catalog row tagged with meal number `meal`, with a quantity of the ladder. */
  predicate Tagged(items: seq<Item>, meal: int, catalog: seq<Food>) {
    forall j :: 0 <= j < |items| ==> items[j].meal == meal && items[j].food in catalog && Ladder(items[j].quantity)
  }

  /** The items the selector keeps for one meal are catalog rows tagged with that meal. */
  lemma SelectTagged(p: Profile, catalog: seq<Food>, categories: seq<string>, meal: int, b: Band,
                     py: Stream, pyPos: nat, np: NumpyStream, npPos: nat)
    ensures var s := Select(MealInputOf(p, catalog, categories, meal, b), py, pyPos, np, npPos);
      s.Ok? ==> Tagged(s.value.items, meal, catalog)
  {
    SelectItems(MealInputOf(p, catalog, categories, meal, b), py, pyPos, np, npPos);
  }

  /** Every meal of `selections` holds catalog rows tagged with the meal of its connection. */
  predicate AllTagged(selections: seq<seq<Item>>, times: seq<Connection>, catalog: seq<Food>)
    requires |selections| <= |times|
  {
    forall k :: 0 <= k < |selections| ==> Tagged(selections[k], times[k].meal, catalog)
  }

  lemma TaggedCons(items: seq<Item>, rest: seq<seq<Item>>, times: seq<Connection>, catalog: seq<Food>)
    requires times != [] && |rest| < |times|
    requires Tagged(items, times[0].meal, catalog)
    requires AllTagged(rest, times[1..], catalog)
    ensures AllTagged([items] + rest, times, catalog)
  {
    var all := [items] + rest;
    forall k | 0 <= k < |all| ensures Tagged(all[k], times[k].meal, catalog) {
      if k > 0 {
        assert all[k] == rest[k - 1];
        assert times[k] == times[1..][k - 1];
      }
    }
  }

  /**
   * Every completed meal of the loop kept only catalog rows, each tagged with
   * the number of the meal whose connection it belongs to.
   */
  lemma {:induction false} DayFromItems(p: Profile, catalog: seq<Food>, times: seq<Connection>,
                                        py: Stream, pyPos: nat, np: NumpyStream, npPos: nat)
    ensures AllTagged(DayFrom(p, catalog, times, py, pyPos, np, npPos).selections, times, catalog)
    decreases |times|
  {
    if times != [] {
      var meal := times[0].meal;
      var categories := np.categories(npPos);
      DayFromFirst(p, catalog, times, py, pyPos, np, npPos);
      if meal in p.bands {
        var s := Select(MealInputOf(p, catalog, categories, meal, p.bands[meal]), py, pyPos, np, npPos + 1);
        if s.Ok? {
          SelectTagged(p, catalog, categories, meal, p.bands[meal], py, pyPos, np, npPos + 1);
          var rest := DayFrom(p, catalog, times[1..], py, s.value.py, np, s.value.np);
          DayFromItems(p, catalog, times[1..], py, s.value.py, np, s.value.np);
          TaggedCons(s.value.items, rest.selections, times, catalog);
        }
      }
    }
  }

  /** A missing calorie band cannot end the day when every scheduled meal has one. */
  lemma {:induction false} DayFromNoMissingBand(p: Profile, catalog: seq<Food>, times: seq<Connection>,
                                                py: Stream, pyPos: nat, np: NumpyStream, npPos: nat)
    requires forall k :: 0 <= k < |times| ==> times[k].meal in p.bands
    ensures var r := DayFrom(p, catalog, times, py, pyPos, np, npPos);
      r.failure.Some? ==> !r.failure.value.MissingBand?
    decreases |times|
  {
    if times != [] {
      var meal := times[0].meal;
      var categories := np.categories(npPos);
      var m := MealInputOf(p, catalog, categories, meal, p.bands[meal]);
      var s := Select(m, py, pyPos, np, npPos + 1);
      if s.Ok? {
        DayFromNoMissingBand(p, catalog, times[1..], py, s.value.py, np, s.value.np);
      } else {
        SelectErrors(m, py, pyPos, np, npPos + 1);
      }
    }
  }

  /** The rows of a meal list: one per item, in order, carrying that item's id and quantity. */
  lemma {:induction false} RowsMatchItems(userId: int, times: seq<Connection>, selections: seq<seq<Item>>)
    requires |selections| <= |times|
    ensures var rows := Rows(userId, times, selections);
      var items := Flatten(selections);
      && |rows| == |items|
      && forall i :: 0 <= i < |rows| ==>
           && rows[i].userId == userId
           && rows[i].foodId == items[i].food.id
           && rows[i].quantity == items[i].quantity
           && exists k :: 0 <= k < |selections| && rows[i].mealId == times[k].meal && rows[i].time == times[k].time
                            && items[i] in selections[k]
    decreases |selections|
  {
    if selections != [] {
      var n := |selections| - 1;
      var init := selections[..n];
      RowsMatchItems(userId, times, init);
      var a := Rows(userId, times, init);
      var b := MealRows(userId, times[n], selections[n]);
      var fa := Flatten(init);
      var rows := Rows(userId, times, selections);
      var items := Flatten(selections);
      assert rows == a + b;
      assert items == fa + selections[n];
      forall i | 0 <= i < |rows|
        ensures rows[i].userId == userId
        ensures rows[i].foodId == items[i].food.id
        ensures rows[i].quantity == items[i].quantity
        ensures exists k :: 0 <= k < |selections| && rows[i].mealId == times[k].meal && rows[i].time == times[k].time
                            && items[i] in selections[k]
      {
        if i < |a| {
          var k :| 0 <= k < |init| && a[i].mealId == times[k].meal && a[i].time == times[k].time && fa[i] in init[k];
          assert init[k] == selections[k];
        } else {
          assert rows[i] == b[i - |a|];
          assert items[i] == selections[n][i - |a|];
        }
      }
    }
  }

  /** Some scheduled meal has number `meal`, and `time` lies in its window around its nominal time. */
  predicate InSchedule(p: Profile, day: int, meal: int, time: int) {
    exists k :: 0 <= k < |p.schedule| && p.schedule[k].meal == meal
      && Nominal(day, p.schedule[k].minute) - 60 <= time
      && time <= Nominal(day, p.schedule[k].minute) + MaxDelay(p.eaterClass)
  }

  /**
   * `simulate_daily_activity`'s log: one row per consumed item, in order, with
   * the item's id and quantity, which is an outcome of the quantity ladder, the
   * item's meal number, and the time of that meal's connection, which lies in
   * the meal's window around its nominal time.
   */
  lemma DailyLogFaithful(p: Profile, userId: int, day: int, catalog: seq<Food>,
                         pyGen: int -> Stream, npGen: int -> NumpyStream)
    ensures var log := DailyLog(p, userId, day, catalog, pyGen, npGen);
      var items := Flatten(Day(p, userId, day, catalog, pyGen, npGen).selections);
      log.Ok? ==>
        && |log.value| == |items|
        && forall i :: 0 <= i < |log.value| ==>
             && log.value[i].userId == userId
             && log.value[i].foodId == items[i].food.id
             && log.value[i].quantity == items[i].quantity
             && Ladder(log.value[i].quantity)
             && log.value[i].mealId == items[i].meal
             && items[i].food in catalog
             && InSchedule(p, day, log.value[i].mealId, log.value[i].time)
  {
    var py := PyStream(p, day, pyGen);
    var times := MealTimes(p, day, py);
    var np := NpStream(userId, day, npGen);
    var run := DayFrom(p, catalog, times, py, |times|, np, 0);
    DayFromItems(p, catalog, times, py, |times|, np, 0);
    RowsFaithful(p, userId, day, catalog, py, run.selections);
  }

  /** The rows of meals whose items are tagged with their connection's meal, for the connections of one day. */
  lemma RowsFaithful(p: Profile, userId: int, day: int, catalog: seq<Food>, py: Stream, selections: seq<seq<Item>>)
    requires |selections| <= |p.schedule|
    requires AllTagged(selections, MealTimes(p, day, py), catalog)
    ensures var rows := Rows(userId, MealTimes(p, day, py), selections);
      var items := Flatten(selections);
      && |rows| == |items|
      && forall i :: 0 <= i < |rows| ==>
           && rows[i].userId == userId
           && rows[i].foodId == items[i].food.id
           && rows[i].quantity == items[i].quantity
           && rows[i].mealId == items[i].meal
           && items[i].food in catalog
           && Ladder(rows[i].quantity)
           && InSchedule(p, day, rows[i].mealId, rows[i].time)
  {
    var times := MealTimes(p, day, py);
    var rows := Rows(userId, times, selections);
    var items := Flatten(selections);
    RowsMatchItems(userId, times, selections);
    forall i | 0 <= i < |rows|
      ensures rows[i].mealId == items[i].meal && items[i].food in catalog && Ladder(rows[i].quantity)
      ensures InSchedule(p, day, rows[i].mealId, rows[i].time)
    {
      var k :| 0 <= k < |selections| && rows[i].mealId == times[k].meal && rows[i].time == times[k].time
               && items[i] in selections[k];
      var j :| 0 <= j < |selections[k]| && selections[k][j] == items[i];
      assert Tagged(selections[k], times[k].meal, catalog);
      ConnectionInWindow(p, day, py, k);
    }
  }

  /** The connection of slot `k` carries that slot's meal at a time inside its window. */
  lemma ConnectionInWindow(p: Profile, day: int, py: Stream, k: nat)
    requires k < |p.schedule|
    ensures InSchedule(p, day, MealTimes(p, day, py)[k].meal, MealTimes(p, day, py)[k].time)
  {
    var c := MealTimes(p, day, py)[k];
    assert p.schedule[k].meal == c.meal;
  }

  /**
   * A profile built by `create_user_instance` never fails on a missing band;
   * for a class outside the table the day has no meal and an empty log.
   */
  lemma CreatedProfileDay(d: UserData, load: string -> PrefTable, userId: int, day: int, catalog: seq<Food>,
                          pyGen: int -> Stream, npGen: int -> NumpyStream)
    ensures var p := CreateProfile(d, load);
      var run := Day(p, userId, day, catalog, pyGen, npGen);
      && (run.failure.Some? ==> !run.failure.value.MissingBand?)
      && (d.eaterClass !in Tags ==> run == DayRun([], None) && DailyLog(p, userId, day, catalog, pyGen, npGen) == Ok([]))
  {
    var p := CreateProfile(d, load);
    var py := PyStream(p, day, pyGen);
    var times := MealTimes(p, day, py);
    forall k | 0 <= k < |times| ensures times[k].meal in p.bands {
      assert times[k].meal in Keys(p.schedule);
    }
    DayFromNoMissingBand(p, catalog, times, py, |times|, NpStream(userId, day, npGen), 0);
  }

  /**
   * The seeds make a user's day `day` and the user with the next id's day
   * `day - 1` draw from the same generators: both eat the same items, meal by meal.
   */
  lemma {:induction false} SeedShift(p: Profile, userId: int, day: int, catalog: seq<Food>,
                                     pyGen: int -> Stream, npGen: int -> NumpyStream)
    ensures var q := p.(userId := p.userId + 1);
      Day(p, userId, day, catalog, pyGen, npGen).selections
        == Day(q, userId + 1, day - 1, catalog, pyGen, npGen).selections
  {
    var q := p.(userId := p.userId + 1);
    var py := PyStream(p, day, pyGen);
    assert PyStream(q, day - 1, pyGen) == py;
    assert NpStream(userId + 1, day - 1, npGen) == NpStream(userId, day, npGen);
    var a := MealTimes(p, day, py);
    var b := MealTimes(q, day - 1, py);
    SameMeals(p, q, catalog, a, b, py, |a|, NpStream(userId, day, npGen), 0);
  }

  /** The meal loop reads only the meal numbers of its connections, not their times. */
  lemma {:induction false} SameMeals(p: Profile, q: Profile, catalog: seq<Food>, a: seq<Connection>, b: seq<Connection>,
                                     py: Stream, pyPos: nat, np: NumpyStream, npPos: nat)
    requires p.bands == q.bands && p.prefs == q.prefs && p.eaterClass == q.eaterClass && p.sex == q.sex
    requires |a| == |b| && forall k :: 0 <= k < |a| ==> a[k].meal == b[k].meal
    ensures DayFrom(p, catalog, a, py, pyPos, np, npPos) == DayFrom(q, catalog, b, py, pyPos, np, npPos)
    decreases |a|
  {
    if a != [] {
      var meal := a[0].meal;
      var categories := np.categories(npPos);
      assert meal == b[0].meal;
      if meal in p.bands {
        assert MealInputOf(p, catalog, categories, meal, p.bands[meal]) == MealInputOf(q, catalog, categories, meal, q.bands[meal]);
        var s := Select(MealInputOf(p, catalog, categories, meal, p.bands[meal]), py, pyPos, np, npPos + 1);
        if s.Ok? {
          SameMeals(p, q, catalog, a[1..], b[1..], py, s.value.py, np, s.value.np);
        }
      }
    }
  }

  /** The result of `simulate_daily_activity`, in terms of the connections and meals of the day. */
  lemma DailyLogOf(p: Profile, userId: int, day: int, catalog: seq<Food>,
                   pyGen: int -> Stream, npGen: int -> NumpyStream, times: seq<Connection>, run: DayRun)
    requires times == MealTimes(p, day, PyStream(p, day, pyGen))
    requires run == Day(p, userId, day, catalog, pyGen, npGen)
    ensures run == DayFrom(p, catalog, times, PyStream(p, day, pyGen), |times|, NpStream(userId, day, npGen), 0)
    ensures |run.selections| <= |times|
    ensures DailyLog(p, userId, day, catalog, pyGen, npGen)
            == if run.failure.Some? then Err(run.failure.value) else Ok(Rows(userId, times, run.selections))
  {
  }

  /** The first meal of the loop: a missing band, a failed selection, or a meal and the rest of the day. */
  lemma DayFromFirst(p: Profile, catalog: seq<Food>, times: seq<Connection>,
                     py: Stream, pyPos: nat, np: NumpyStream, npPos: nat)
    requires times != []
    ensures var r := DayFrom(p, catalog, times, py, pyPos, np, npPos);
      var meal := times[0].meal;
      if meal !in p.bands then r == DayRun([], Some(MissingBand(meal)))
      else
        var s := Select(MealInputOf(p, catalog, np.categories(npPos), meal, p.bands[meal]), py, pyPos, np, npPos + 1);
        if s.Err? then r == DayRun([], Some(s.error))
        else
          var rest := DayFrom(p, catalog, times[1..], py, s.value.py, np, s.value.np);
          r == DayRun([s.value.items] + rest.selections, rest.failure)
  {
  }

  /**
   * The still-unprocessed meals after the first `k` connections, folded once
   * more: the next meal and the rest of the day after it.
   */
  lemma DayAt(p: Profile, catalog: seq<Food>, times: seq<Connection>, k: nat,
              py: Stream, pyPos: nat, np: NumpyStream, npPos: nat, done: seq<seq<Item>>, run: DayRun)
    requires k < |times|
    requires var rest := DayFrom(p, catalog, times[k..], py, pyPos, np, npPos);
      run == DayRun(done + rest.selections, rest.failure)
    ensures var meal := times[k].meal;
      if meal !in p.bands then run == DayRun(done, Some(MissingBand(meal)))
      else
        var s := Select(MealInputOf(p, catalog, np.categories(npPos), meal, p.bands[meal]), py, pyPos, np, npPos + 1);
        if s.Err? then run == DayRun(done, Some(s.error))
        else
          var rest := DayFrom(p, catalog, times[k + 1..], py, s.value.py, np, s.value.np);
          run == DayRun((done + [s.value.items]) + rest.selections, rest.failure)
  {
    assert times[k..][0] == times[k];
    assert times[k..][1..] == times[k + 1..];
    assert done + [] == done;
    DayFromFirst(p, catalog, times[k..], py, pyPos, np, npPos);
    var meal := times[k].meal;
    if meal in p.bands {
      var s := Select(MealInputOf(p, catalog, np.categories(npPos), meal, p.bands[meal]), py, pyPos, np, npPos + 1);
      if s.Ok? {
        var rest := DayFrom(p, catalog, times[k + 1..], py, s.value.py, np, s.value.np);
        Regroup(done, s.value.items, rest.selections);
      }
    }
  }

  lemma RowsAppend(userId: int, times: seq<Connection>, done: seq<seq<Item>>, items: seq<Item>)
    requires |done| < |times|
    ensures Rows(userId, times, done + [items]) == Rows(userId, times, done) + MealRows(userId, times[|done|], items)
  {
    assert (done + [items])[..|done|] == done;
  }

  lemma Regroup(done: seq<seq<Item>>, items: seq<Item>, later: seq<seq<Item>>)
    ensures done + ([items] + later) == (done + [items]) + later
  {
  }

  // ---------------------------------------------------------------------------
  // The user object
  // ---------------------------------------------------------------------------

  /** A user: its fixed profile and `aliments_consomme`, the items of the last simulated day. */
  class User {
    const profile: Profile
    var consumed: seq<Item>

    constructor (p: Profile)
      ensures profile == p && consumed == []
    {
      profile := p;
      consumed := [];
    }

    /** `generer_heures_connexion`: a loop over the schedule, one `randint` per meal. */
    method GenerateMealTimes(day: int, pyGen: int -> Stream) returns (times: seq<Connection>)
      ensures times == MealTimes(profile, day, PyStream(profile, day, pyGen))
    {
      var py := pyGen(day + profile.userId);
      ghost var spec := MealTimes(profile, day, py);
      times := [];
      var k := 0;
      while k < |profile.schedule|
        invariant 0 <= k <= |profile.schedule|
        invariant times == spec[..k]
      {
        var slot := profile.schedule[k];
        var variation;
        if profile.eaterClass == "random" {
          variation := RandInt(py(k), -60, 300);
        } else {
          variation := RandInt(py(k), -60, 60);
        }
        times := times + [Connection(slot.meal, Nominal(day, slot.minute) + variation)];
        k := k + 1;
      }
      assert spec[..k] == spec;
    }

    /**
     * The first loop of `selectionner_aliments`: one catalog row per drawn
     * category, with its quantity, until the calorie condition holds.
     */
    method TakeFoods(m: MealInput, py: Stream, pyPos: nat, np: NumpyStream, npPos: nat) returns (r: Result<Forward>)
      requires m.eaterClass == profile.eaterClass
      ensures r == ForwardFrom(m, py, np, Initial(py, pyPos, npPos))
    {
      var st := Initial(py, pyPos, npPos);
      ghost var start := st;
      while |st.items| < |m.categories|
        invariant |st.items| <= |m.categories|
        invariant ForwardFrom(m, py, np, st) == ForwardFrom(m, py, np, start)
        decreases |m.categories| - |st.items|
      {
        var next := TakeOne(m, py, np, st);
        if next.Err? {
          return Err(next.error);
        }
        st := next.value;
        if st.total >= m.lo && (st.exceed || st.total <= m.hi) {
          return Ok(st);
        }
      }
      return Ok(st);
    }

    /** One pass of the first loop: sample a row of the next category and decide its quantity. */
    method TakeOne(m: MealInput, py: Stream, np: NumpyStream, st: Forward) returns (r: Result<Forward>)
      requires m.eaterClass == profile.eaterClass
      requires |st.items| < |m.categories|
      ensures r == Step(m, py, np, st)
    {
      var c := m.categories[|st.items|];
      var rows := OfCategory(m.catalog, c);
      if rows == [] {
        return Err(NoFoodOfType(c));
      }
      var food := rows[Below(np.picks(st.np), |rows|)];
      var d := Quantity(profile.eaterClass, c, py, st.py);
      var it := Item(food, m.meal, d.quantity);
      var exceed := st.exceed;
      if d.quantity >= 10 {
        exceed := true;
      }
      return Ok(Forward(st.items + [it], st.total + Energy(it), exceed, d.next, st.np + 1));
    }

    /**
     * The second loop of `selectionner_aliments`: while the total exceeds
     * `hi`, sort by score (every key is looked up) and pop the head.
     */
    method DropLowest(items0: seq<Item>, total0: real, hi: real) returns (r: Result<seq<Item>>)
      requires total0 == Total(items0)
      ensures r == RemoveFrom(profile.prefs, items0, total0, hi)
    {
      var items := items0;
      var total := total0;
      while total > hi
        invariant total == Total(items)
        invariant RemoveFrom(profile.prefs, items, total, hi) == RemoveFrom(profile.prefs, items0, total0, hi)
        decreases |items|
      {
        if !AllScored(profile.prefs, items) {
          var missing := Unscored(profile.prefs, items).value;
          return Err(MissingScore(missing.food.category, missing.meal));
        }
        var sorted := SortByScore(profile.prefs, items);
        if sorted == [] {
          return Err(PopFromEmpty);
        }
        RemoveOnce(profile.prefs, items, total, hi);
        var head := sorted[0];
        items := sorted[1..];
        total := total - Energy(head);
      }
      return Ok(items);
    }

    /** `selectionner_aliments`: both loops, on the Python stream from `pyPos` and the numpy stream from `npPos`. */
    method SelectFoods(catalog: seq<Food>, categories: seq<string>, meal: int, b: Band,
                       py: Stream, pyPos: nat, np: NumpyStream, npPos: nat) returns (r: Result<MealResult>)
      ensures r == Select(MealInputOf(profile, catalog, categories, meal, b), py, pyPos, np, npPos)
    {
      var m := MealInputOf(profile, catalog, categories, meal, b);
      ForwardTotal(m, py, pyPos, np, npPos);
      var forward := TakeFoods(m, py, pyPos, np, npPos);
      if forward.Err? {
        return Err(forward.error);
      }
      var f := forward.value;
      if !f.exceed && f.total > m.hi {
        var kept := DropLowest(f.items, f.total, m.hi);
        if kept.Err? {
          return Err(kept.error);
        }
        return Ok(MealResult(kept.value, f.py, f.np));
      }
      return Ok(MealResult(f.items, f.py, f.np));
    }

    /** The inner loop of `simulate_daily_activity`: one log row per item of a meal. */
    method LogMeal(userId: int, c: Connection, items: seq<Item>) returns (rows: seq<LogRow>)
      ensures rows == MealRows(userId, c, items)
    {
      rows := [];
      var j := 0;
      while j < |items|
        invariant 0 <= j <= |items|
        invariant rows == MealRows(userId, c, items[..j])
      {
        var quantity := items[j].quantity;
        assert MealRows(userId, c, items[..j + 1])
            == MealRows(userId, c, items[..j]) + [LogRow(userId, c.meal, c.time, items[j].food.id, quantity)];
        rows := rows + [LogRow(userId, c.meal, c.time, items[j].food.id, quantity)];
        j := j + 1;
      }
      assert items[..j] == items;
    }

    /**
     * `simulate_daily_activity`: resets the consumed items, then for each
     * connection draws the categories, runs the selector, records its items and
     * logs one row per item. On an error the day stops; the consumed items keep
     * the meals that completed.
     */
    method SimulateDailyActivity(userId: int, day: int, catalog: seq<Food>,
                                 pyGen: int -> Stream, npGen: int -> NumpyStream) returns (r: Result<seq<LogRow>>)
      modifies this
      ensures consumed == Flatten(Day(profile, userId, day, catalog, pyGen, npGen).selections)
      ensures r == DailyLog(profile, userId, day, catalog, pyGen, npGen)
    {
      var np := npGen(day + userId);
      var times := GenerateMealTimes(day, pyGen);
      var py := pyGen(day + profile.userId);
      ghost var run := Day(profile, userId, day, catalog, pyGen, npGen);
      DailyLogOf(profile, userId, day, catalog, pyGen, npGen, times, run);
      consumed := [];
      var logs: seq<LogRow> := [];
      var pyPos: nat := |times|;
      var npPos: nat := 0;
      ghost var done: seq<seq<Item>> := [];
      assert py == PyStream(profile, day, pyGen) && np == NpStream(userId, day, npGen);
      assert times[0..] == times;
      assert run == DayFrom(profile, catalog, times[0..], py, pyPos, np, npPos);
      assert done + run.selections == run.selections;
      var k := 0;
      while k < |times|
        invariant 0 <= k <= |times| && |done| == k
        invariant consumed == Flatten(done)
        invariant logs == Rows(userId, times, done)
        invariant var rest := DayFrom(profile, catalog, times[k..], py, pyPos, np, npPos);
          run == DayRun(done + rest.selections, rest.failure)
        decreases |times| - k
      {
        var meal := times[k].meal;
        var categories := np.categories(npPos);
        DayAt(profile, catalog, times, k, py, pyPos, np, npPos, done, run);
        if meal !in profile.bands {
          return Err(MissingBand(meal));
        }
        var selected := SelectFoods(catalog, categories, meal, profile.bands[meal], py, pyPos, np, npPos + 1);
        if selected.Err? {
          return Err(selected.error);
        }
        var items := selected.value.items;
        FlattenAppend(done, items);
        consumed := consumed + items;
        var rows := LogMeal(userId, times[k], items);
        logs := logs + rows;
        RowsAppend(userId, times, done, items);
        done := done + [items];
        pyPos := selected.value.py;
        npPos := selected.value.np;
        k := k + 1;
      }
      assert run == DayRun(done, None) by {
        assert times[k..] == [];
        assert done + [] == done;
      }
      return Ok(logs);
    }

    /** `get_daily_activity`: the day's log, reshaped into its five columns row by row. */
    method GetDailyActivity(userId: int, day: int, catalog: seq<Food>,
                            pyGen: int -> Stream, npGen: int -> NumpyStream) returns (r: Result<Columns>)
      modifies this
      ensures consumed == Flatten(Day(profile, userId, day, catalog, pyGen, npGen).selections)
      ensures r == DailyColumns(profile, userId, day, catalog, pyGen, npGen)
    {
      var log := SimulateDailyActivity(userId, day, catalog, pyGen, npGen);
      if log.Err? {
        return Err(log.error);
      }
      var c := Reshape(log.value);
      return Ok(c);
    }
  }

  /** The loop of `get_daily_activity` that appends each row's five fields to its five columns. */
  method Reshape(rows: seq<LogRow>) returns (c: Columns)
    ensures c == ColumnsOf(rows)
  {
    c := Columns([], [], [], [], []);
    var i := 0;
    while i < |rows|
      invariant 0 <= i <= |rows|
      invariant c == ColumnsOf(rows[..i])
    {
      c := Columns(c.userId + [rows[i].userId], c.mealId + [rows[i].mealId], c.time + [rows[i].time],
                   c.foodId + [rows[i].foodId], c.quantity + [rows[i].quantity]);
      i := i + 1;
    }
    assert rows[..i] == rows;
  }

  /** `create_user_instance`, with the fallback to the base class for an unknown tag. */
  method CreateUserInstance(d: UserData, load: string -> PrefTable) returns (u: User)
    ensures fresh(u) && u.profile == CreateProfile(d, load) && u.consumed == []
  {
    u := new User(CreateProfile(d, load));
  }
}
