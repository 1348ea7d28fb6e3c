/** The user profile and the static table of eater classes (`User`, its six subclasses, `create_user_instance`). */
module Registry {
  import opened Results
  import opened Preferences

  /** A scheduled meal: its number ('repas') and its nominal time, in minutes after midnight. */
  datatype Slot = Slot(meal: int, minute: int)

  /** A calorie band (min, max) of one meal. */
  datatype Band = Band(min: int, max: int)

  /** What a subclass fixes: its preference file, `heures_repas` in dict order, `intervalles_calories`. */
  datatype ClassTables = ClassTables(foodTypeFile: string, schedule: seq<Slot>, bands: map<int, Band>)

  /** A constructed user, without the transient buffer of consumed items. */
  datatype Profile = Profile(
    lastName: string, firstName: string, age: int, sex: string, userId: int,
    eaterClass: string, foodTypeFile: string,
    schedule: seq<Slot>, bands: map<int, Band>, prefs: PrefTable)

  /** The row of the user sheet that `create_user_instance` receives. */
  datatype UserData = UserData(lastName: string, firstName: string, age: int, sex: string, userId: int, eaterClass: string)

  /** `facteur_calories`. */
  function CalorieFactor(sex: string): (f: real)
    ensures f == 1.2 <==> sex == "homme"
    ensures f == 1.0 <==> sex != "homme"
  {
    if sex == "homme" then 1.2 else 1.0
  }

  const Tags: seq<string> := ["standard", "meat_lover", "vegetarian", "vegan", "fasting", "random"]

  ghost predicate WellFormed(c: ClassTables) {
    && (forall k :: 0 <= k < |c.schedule| ==> c.schedule[k].meal == k + 1)
    && (forall m :: m in c.bands <==> 1 <= m <= |c.schedule|)
    && (forall m :: m in c.bands ==> c.bands[m].min <= c.bands[m].max)
  }

  function Keys(schedule: seq<Slot>): set<int> {
    set k | 0 <= k < |schedule| :: schedule[k].meal
  }

  /** The tables of a class with the four meals at 08:00, 12:00, 16:00 and 20:00. */
  function FourMealClass(file: string, b1: Band, b2: Band, b3: Band, b4: Band): (c: ClassTables)
    requires b1.min <= b1.max && b2.min <= b2.max && b3.min <= b3.max && b4.min <= b4.max
    ensures WellFormed(c) && Keys(c.schedule) == c.bands.Keys && |c.schedule| == 4
  {
    var c := ClassTables(file, [Slot(1, 8 * 60), Slot(2, 12 * 60), Slot(3, 16 * 60), Slot(4, 20 * 60)],
                         map[1 := b1, 2 := b2, 3 := b3, 4 := b4]);
    assert Keys(c.schedule) == c.bands.Keys by {
      forall m | m in c.bands ensures m in Keys(c.schedule) {
        assert c.schedule[m - 1].meal == m;
      }
    }
    c
  }

  /** `Fasting`: lunch at 12:00 and dinner at 18:00. */
  function FastingClass(): (c: ClassTables)
    ensures WellFormed(c) && Keys(c.schedule) == c.bands.Keys && |c.schedule| == 2
  {
    var c := ClassTables("fasting_class.XLSX", [Slot(1, 12 * 60), Slot(2, 18 * 60)],
                         map[1 := Band(1000, 1200), 2 := Band(800, 1000)]);
    assert Keys(c.schedule) == c.bands.Keys by {
      assert c.schedule[0].meal == 1 && c.schedule[1].meal == 2;
    }
    c
  }

  /** `Random`: one meal at 13:00. */
  function RandomClass(): (c: ClassTables)
    ensures WellFormed(c) && Keys(c.schedule) == c.bands.Keys && |c.schedule| == 1
  {
    var c := ClassTables("random_eater_class.XLSX", [Slot(1, 13 * 60)], map[1 := Band(900, 4500)]);
    assert Keys(c.schedule) == c.bands.Keys by {
      assert c.schedule[0].meal == 1;
    }
    c
  }

  /** The class table: the `classes_mangeurs` dictionary and the tables each subclass sets. */
  function Tables(tag: string): (r: Option<ClassTables>)
    ensures r.Some? <==> tag in Tags
    // the meals are numbered 1..n in schedule order, the bands have exactly those keys, min <= max
    ensures r.Some? ==> WellFormed(r.value)
    ensures r.Some? ==> Keys(r.value.schedule) == r.value.bands.Keys
    ensures r.Some? ==> |r.value.schedule| == (if tag == "fasting" then 2 else if tag == "random" then 1 else 4)
  {
    if tag == "standard" then
      Some(FourMealClass("standard_class.XLSX", Band(300, 500), Band(600, 800), Band(200, 300), Band(500, 700)))
    else if tag == "meat_lover" then
      Some(FourMealClass("meat_lover_class.XLSX", Band(400, 600), Band(700, 900), Band(300, 500), Band(600, 800)))
    else if tag == "vegetarian" then
      Some(FourMealClass("vegetarian_class.XLSX", Band(300, 400), Band(500, 700), Band(100, 200), Band(450, 600)))
    else if tag == "vegan" then
      Some(FourMealClass("vegan_class.XLSX", Band(250, 350), Band(500, 700), Band(100, 200), Band(400, 500)))
    else if tag == "fasting" then Some(FastingClass())
    else if tag == "random" then Some(RandomClass())
    else None
  }

  /** The profile a subclass constructor builds, with its file read by `load`. */
  function Build(d: UserData, c: ClassTables, load: string -> PrefTable): Profile {
    Profile(d.lastName, d.firstName, d.age, d.sex, d.userId, d.eaterClass, c.foodTypeFile,
            c.schedule, c.bands, load(c.foodTypeFile))
  }

  /**
   * `create_user_instance` AS WRITTEN: for an unknown tag it calls
   * `User(**user_data)` after 'classe_mangeur' was popped, and `User.__init__`
   * then lacks its `classe_mangeur` and `type_food` arguments.
   */
  function CreateProfileAsWritten(d: UserData, load: string -> PrefTable): (r: Result<Profile>)
    ensures r.Err? <==> d.eaterClass !in Tags
    ensures r.Err? ==> r.error == MissingArguments(d.eaterClass)
    ensures r.Ok? ==> r.value.userId == d.userId && r.value.eaterClass == d.eaterClass && r.value.schedule != []
    ensures r.Ok? ==> Tables(d.eaterClass).Some?
    ensures r.Ok? ==>
      var c := Tables(d.eaterClass).value;
      && r.value.schedule == c.schedule && r.value.bands == c.bands
      && r.value.foodTypeFile == c.foodTypeFile && r.value.prefs == load(c.foodTypeFile)
      && r.value.sex == d.sex
  {
    match Tables(d.eaterClass)
    case Some(c) => Ok(Build(d, c, load))
    case None => Err(MissingArguments(d.eaterClass))
  }

  /** The discrepancy on one input: the tag 'glutton' raises instead of falling back to the base user. */
  lemma UnknownTagRaises(load: string -> PrefTable)
    ensures var d := UserData("Martin", "Lea", 30, "femme", 7, "glutton");
      && CreateProfileAsWritten(d, load) == Err(MissingArguments("glutton"))
      && CreateProfile(d, load).schedule == []
  {
    var d := UserData("Martin", "Lea", 30, "femme", 7, "glutton");
    assert d.eaterClass !in Tags;
  }

  /**
   * `create_user_instance` as documented: an unknown tag falls back to the
   * base `User`, whose schedule and bands are empty (no preference sheet is read).
   */
  function CreateProfile(d: UserData, load: string -> PrefTable): (p: Profile)
    ensures p.userId == d.userId && p.eaterClass == d.eaterClass && p.sex == d.sex
    ensures p.schedule == [] <==> d.eaterClass !in Tags
    ensures p.bands == map[] <==> d.eaterClass !in Tags
    ensures Keys(p.schedule) == p.bands.Keys
    ensures forall m :: m in p.bands ==> p.bands[m].min <= p.bands[m].max
    ensures d.eaterClass in Tags ==> CreateProfileAsWritten(d, load) == Ok(p)
  {
    match Tables(d.eaterClass)
    case Some(c) =>
      assert 1 in c.bands;
      Build(d, c, load)
    case None => Profile(d.lastName, d.firstName, d.age, d.sex, d.userId, d.eaterClass, "", [], map[], Sheet({}, []))
  }
}
