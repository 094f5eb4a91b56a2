/** The dashboard page's own logic: today's totals over the activity list,
    the recent-activity view, the icon and text formatters, the workout
    filter, and the page state that step tracking, the goal defaults and
    the nutrition loader change. "Today" is an abstract day key and `dayOf`
    the calendar day (`toDateString`) of a time in milliseconds. */
module Dashboard {
  import opened Json
  import opened Text

  /** An activity as the page keeps it. A missing number is `None`. */
  datatype ClientActivity = ClientActivity(
    id: int, kind: string, duration: Option<int>, steps: Option<int>,
    calories: Option<int>, date: int, intensity: string)

  /** `x || 0` on a number that may be missing. */
  function Or0(v: Option<int>): int {
    if v.Some? then v.value else 0
  }

  predicate IsToday(a: ClientActivity, today: int, dayOf: int -> int) {
    dayOf(a.date) == today
  }

  // ------------------------------------------------------------ today's totals

  /** `getTodaySteps`: the live step count plus the steps of today's walks. */
  function TodaySteps(acts: seq<ClientActivity>, today: int, dayOf: int -> int, stepCount: int): (r: int)
    ensures (forall i | 0 <= i < |acts| :: Or0(acts[i].steps) >= 0) ==> r >= stepCount
  {
    if acts == [] then stepCount
    else
      var last := acts[|acts| - 1];
      TodaySteps(acts[..|acts| - 1], today, dayOf, stepCount)
        + (if IsToday(last, today, dayOf) && last.kind == "walking" then Or0(last.steps) else 0)
  }

  /** `getTodayCaloriesBurned`: the calories of every activity of today. */
  function TodayCalories(acts: seq<ClientActivity>, today: int, dayOf: int -> int): (r: int)
    ensures (forall i | 0 <= i < |acts| :: Or0(acts[i].calories) >= 0) ==> r >= 0
  {
    if acts == [] then 0
    else
      var last := acts[|acts| - 1];
      TodayCalories(acts[..|acts| - 1], today, dayOf)
        + (if IsToday(last, today, dayOf) then Or0(last.calories) else 0)
  }

  /** `getTodayWorkoutTime`: the minutes of today's activities other than walks. */
  function TodayWorkoutTime(acts: seq<ClientActivity>, today: int, dayOf: int -> int): (r: int)
    ensures (forall i | 0 <= i < |acts| :: Or0(acts[i].duration) >= 0) ==> r >= 0
  {
    if acts == [] then 0
    else
      var last := acts[|acts| - 1];
      TodayWorkoutTime(acts[..|acts| - 1], today, dayOf)
        + (if IsToday(last, today, dayOf) && last.kind != "walking" then Or0(last.duration) else 0)
  }

  /** Each total over a concatenation is the total over the first part plus
      that over the second. */
  lemma {:induction false} TotalsSplit(xs: seq<ClientActivity>, ys: seq<ClientActivity>,
                                       today: int, dayOf: int -> int, stepCount: int)
    ensures TodaySteps(xs + ys, today, dayOf, stepCount) == TodaySteps(xs, today, dayOf, stepCount) + TodaySteps(ys, today, dayOf, 0)
    ensures TodayCalories(xs + ys, today, dayOf) == TodayCalories(xs, today, dayOf) + TodayCalories(ys, today, dayOf)
    ensures TodayWorkoutTime(xs + ys, today, dayOf) == TodayWorkoutTime(xs, today, dayOf) + TodayWorkoutTime(ys, today, dayOf)
  {
    if ys == [] {
      assert xs + ys == xs;
    } else {
      var init := ys[..|ys| - 1];
      assert (xs + ys)[..|xs + ys| - 1] == xs + init;
      TotalsSplit(xs, init, today, dayOf, stepCount);
    }
  }

  /** Walks never count as workout time. */
  lemma {:induction false} WalksNoWorkout(walks: seq<ClientActivity>, today: int, dayOf: int -> int)
    requires forall i | 0 <= i < |walks| :: walks[i].kind == "walking"
    ensures TodayWorkoutTime(walks, today, dayOf) == 0
  {
    if walks != [] {
      WalksNoWorkout(walks[..|walks| - 1], today, dayOf);
    }
  }

  /** Activities of other days change none of today's totals. */
  lemma {:induction false} OtherDaysIgnored(ys: seq<ClientActivity>, today: int, dayOf: int -> int)
    requires forall i | 0 <= i < |ys| :: !IsToday(ys[i], today, dayOf)
    ensures TodaySteps(ys, today, dayOf, 0) == 0
    ensures TodayCalories(ys, today, dayOf) == 0
    ensures TodayWorkoutTime(ys, today, dayOf) == 0
  {
    if ys != [] {
      OtherDaysIgnored(ys[..|ys| - 1], today, dayOf);
    }
  }

  // ------------------------------------------------------------ recent activities

  function Reverse<T>(s: seq<T>): (r: seq<T>)
    ensures |r| == |s|
    ensures forall i | 0 <= i < |s| :: r[i] == s[|s| - 1 - i]
  {
    if s == [] then [] else [s[|s| - 1]] + Reverse(s[..|s| - 1])
  }

  /** `activities.slice(-3).reverse()`: the last three activities, the most
      recently added first. */
  function Recent(acts: seq<ClientActivity>): (r: seq<ClientActivity>)
    ensures |r| == if |acts| < 3 then |acts| else 3
    ensures forall i | 0 <= i < |r| :: r[i] == acts[|acts| - 1 - i]
  {
    var k := if |acts| < 3 then |acts| else 3;
    Reverse(acts[|acts| - k..])
  }

  // ------------------------------------------------------------ formatters

  /** The Font Awesome icon of each known activity type. */
  const Icons: map<string, string> := map[
    "walking" := "walking", "running" := "running", "cycling" := "biking",
    "swimming" := "swimming", "weightlifting" := "dumbbell", "yoga" := "spa",
    "other" := "heart"]

  /** `getActivityIcon`: the table's icon, and 'heart' for any other type. */
  function ActivityIcon(kind: string): (r: string)
    ensures kind in Icons ==> r == Icons[kind]
    ensures r == "heart" <==> kind !in {"walking", "running", "cycling", "swimming", "weightlifting", "yoga"}
  {
    if kind in Icons then Icons[kind] else "heart"
  }

  /** `.replace(/([A-Z])/g, ' $1')`: a space before every upper-case letter. */
  function SpaceBeforeCaps(s: string): (r: string)
    ensures r != [] ==> !IsUpper(r[0])
    ensures forall i | 0 <= i < |r| && IsUpper(r[i]) :: 0 < i && r[i - 1] == ' '
  {
    if s == [] then []
    else
      var head := if IsUpper(s[0]) then [' ', s[0]] else [s[0]];
      var rest := SpaceBeforeCaps(s[1..]);
      assert forall i | |head| <= i < |head + rest| :: (head + rest)[i] == rest[i - |head|];
      head + rest
  }

  /** The inverse: each space followed by an upper-case letter is dropped. */
  function DropSpaceBeforeCaps(s: string): string {
    if |s| >= 2 && s[0] == ' ' && IsUpper(s[1]) then [s[1]] + DropSpaceBeforeCaps(s[2..])
    else if s == [] then []
    else [s[0]] + DropSpaceBeforeCaps(s[1..])
  }

  /** Dropping the inserted spaces gives the text back. */
  lemma {:induction false} SpacesRoundTrip(s: string)
    ensures DropSpaceBeforeCaps(SpaceBeforeCaps(s)) == s
  {
    if s != [] {
      var rest := SpaceBeforeCaps(s[1..]);
      SpacesRoundTrip(s[1..]);
      if IsUpper(s[0]) {
        assert SpaceBeforeCaps(s) == [' ', s[0]] + rest;
        assert ([' ', s[0]] + rest)[2..] == rest;
      } else {
        assert SpaceBeforeCaps(s) == [s[0]] + rest;
        assert ([s[0]] + rest)[1..] == rest;
      }
    }
  }

  /** `formatActivityName`: the first letter in upper case and a space before
      every later upper-case letter; 'weightLifting' reads 'Weight Lifting'. */
  function FormatActivityName(kind: string): (r: string)
    ensures r == [] <==> kind == []
    ensures kind != [] ==> r[0] == UpperChar(kind[0]) && DropSpaceBeforeCaps(r[1..]) == kind[1..]
    ensures forall i | 1 <= i < |r| && IsUpper(r[i]) :: 1 < i && r[i - 1] == ' '
  {
    if kind == [] then []
    else
      SpacesRoundTrip(kind[1..]);
      var rest := SpaceBeforeCaps(kind[1..]);
      assert forall i | 1 <= i < 1 + |rest| :: ([UpperChar(kind[0])] + rest)[i] == rest[i - 1];
      [UpperChar(kind[0])] + rest
  }

  const HourMs: int := 60 * 60 * 1000

  /** "n unit ago", with the plural 's' only when n is more than one. */
  function Ago(n: nat, unit: string): string {
    Decimal(n) + " " + unit + (if n > 1 then "s" else "") + " ago"
  }

  /** `formatActivityTime`: whole hours since the activity, rounded down;
      under one hour 'Just now', under a day the hours, otherwise whole days. */
  function FormatActivityTime(now: int, date: int): (r: string)
    ensures r == "Just now" <==> now - date < HourMs
  {
    var hours := (now - date) / HourMs;
    if hours < 1 then "Just now"
    else if hours < 24 then Ago(hours, "hour")
    else Ago(hours / 24, "day")
  }

  /** Reading an elapsed-time text back: its first word is the count of
      hours (under a day) or of days, its second the unit, its third 'ago'. */
  lemma AgoReadsBack(n: nat, unit: string)
    requires unit != [] && ' ' !in unit && 's' !in unit
    ensures var words := Split(Ago(n, unit), ' ');
            |words| == 3 && DecimalValue(words[0]) == n
            && words[1] == unit + (if n > 1 then "s" else "") && words[2] == "ago"
  {
    var d := Decimal(n);
    var u := unit + (if n > 1 then "s" else "");
    assert Ago(n, unit) == d + [' '] + (u + [' '] + "ago");
    assert forall i | 0 <= i < |d| :: d[i] != ' ';
    SplitPrefix(d, ' ', u + [' '] + "ago");
    SplitPrefix(u, ' ', "ago");
    SplitWhole("ago", ' ');
    DecimalRoundTrip(n);
  }

  /** An activity at least an hour old shows its age in hours below a day and
      in days from then on. */
  lemma TimeReadsBack(now: int, date: int)
    requires now - date >= HourMs
    ensures var hours := (now - date) / HourMs;
            var words := Split(FormatActivityTime(now, date), ' ');
            |words| == 3 && words[2] == "ago"
            && (hours < 24 ==> DecimalValue(words[0]) == hours && words[1] in {"hour", "hours"})
            && (hours >= 24 ==> DecimalValue(words[0]) == hours / 24 && words[1] in {"day", "days"})
  {
    var hours := (now - date) / HourMs;
    if hours < 24 {
      AgoReadsBack(hours, "hour");
      assert "hour" + "s" == "hours" && "hour" + "" == "hour";
    } else {
      AgoReadsBack(hours / 24, "day");
      assert "day" + "s" == "days" && "day" + "" == "day";
    }
  }

  // ------------------------------------------------------------ workouts

  datatype Workout = Workout(id: int, name: string, description: string, duration: int,
                             difficulty: string, category: string)

  /** The workouts the category tabs choose from. */
  const AllWorkouts: seq<Workout> := [
    Workout(1, "Morning Cardio Blast", "High-intensity cardio workout", 30, "beginner", "cardio"),
    Workout(2, "Upper Body Strength", "Build upper body strength", 45, "intermediate", "strength"),
    Workout(3, "Yoga Flow", "Relaxing yoga sequence", 60, "beginner", "flexibility"),
    Workout(4, "HIIT Training", "High-intensity interval training", 25, "advanced", "cardio")
  ]

  /** `workouts.filter(w => w.category === category)`, order kept. */
  function InCategory(ws: seq<Workout>, category: string): (r: seq<Workout>)
    ensures |r| <= |ws|
    ensures forall w :: w in r <==> w in ws && w.category == category
  {
    if ws == [] then []
    else (if ws[0].category == category then [ws[0]] else []) + InCategory(ws[1..], category)
  }

  /** The filter works piece by piece, so the workouts it keeps stay in
      the order the list gives them. */
  lemma {:induction false} InCategoryAppend(a: seq<Workout>, b: seq<Workout>, category: string)
    ensures InCategory(a + b, category) == InCategory(a, category) + InCategory(b, category)
    decreases |a|
  {
    if a != [] {
      assert (a + b)[1..] == a[1..] + b;
      InCategoryAppend(a[1..], b, category);
    } else {
      assert a + b == b;
    }
  }

  /** `switchWorkoutCategory`: every workout for 'recommended', otherwise
      those of the category. */
  function WorkoutsFor(category: string): (r: seq<Workout>)
    ensures category == "recommended" ==> r == AllWorkouts
    ensures category != "recommended" ==> forall w :: w in r <==> w in AllWorkouts && w.category == category
  {
    if category == "recommended" then AllWorkouts else InCategory(AllWorkouts, category)
  }

  /** The cardio tab lists the morning cardio blast, then the HIIT training. */
  lemma CardioTab()
    ensures WorkoutsFor("cardio") == [AllWorkouts[0], AllWorkouts[3]]
  {
    assert AllWorkouts[1..][1..][1..][1..] == [];
  }

  // ------------------------------------------------------------ goals and nutrition

  /** A goal as the page keeps it; progress figures are JavaScript numbers. */
  datatype ClientGoal = ClientGoal(id: int, title: string, description: string, kind: string,
                                   target: real, current: real, deadline: int, category: string)

  const DayMs: int := 24 * HourMs

  /** The two goals a user without goals is shown, due in 30 and 90 days. */
  function DefaultGoals(now: int): seq<ClientGoal> {
    [ ClientGoal(1, "Daily Steps", "Walk 10,000 steps every day", "steps", 10000.0, 7500.0, now + 30 * DayMs, "fitness"),
      ClientGoal(2, "Weight Loss", "Lose 5kg in 3 months", "weight", 5.0, 2.5, now + 90 * DayMs, "health") ]
  }

  /** The nutrition totals the dashboard shows. */
  datatype Nutrients = Nutrients(calories: int, protein: int, carbs: int, fat: int, water: int)

  /** `item.f || 0` on a field of a server document. */
  function NumOr0(doc: Doc, f: string): int {
    if f in doc && doc[f].Num? then doc[f].n else 0
  }

  function TotalsOf(doc: Doc): Nutrients {
    Nutrients(NumOr0(doc, "calories"), NumOr0(doc, "protein"), NumOr0(doc, "carbs"),
              NumOr0(doc, "fat"), NumOr0(doc, "water"))
  }

  /** An entry is of today when its `date` is a date on that day; a missing
      date is an Invalid Date, which is no day. */
  predicate EntryToday(doc: Doc, today: int, dayOf: int -> int) {
    DateIn(doc, "date").Some? && dayOf(DateIn(doc, "date").value) == today
  }

  /** `data.find(item => same day as today)`, as an index. */
  function FirstToday(items: seq<Doc>, today: int, dayOf: int -> int): (r: Option<nat>)
    ensures r.Some? ==> r.value < |items| && EntryToday(items[r.value], today, dayOf)
    ensures r.Some? ==> forall j | 0 <= j < r.value :: !EntryToday(items[j], today, dayOf)
    ensures r.None? ==> forall j | 0 <= j < |items| :: !EntryToday(items[j], today, dayOf)
  {
    if items == [] then None
    else if EntryToday(items[0], today, dayOf) then Some(0)
    else
      match FirstToday(items[1..], today, dayOf)
      case Some(k) => Some(k + 1)
      case None => None
  }

  /** The walk that stopping the step tracker records: one minute per
      hundred steps and four calories per hundred steps, rounded down. */
  function StepWalk(count: int, now: int): ClientActivity {
    ClientActivity(now, "walking", Some(count / 100), Some(count), Some(count * 4 / 100), now, "moderate")
  }

  /** Recording the tracked walk moves the live count into the list without
      changing today's step total, adds its calories and no workout time. */
  lemma StopKeepsTotals(acts: seq<ClientActivity>, count: int, now: int, today: int, dayOf: int -> int)
    requires dayOf(now) == today
    ensures var after := acts + [StepWalk(count, now)];
            && TodaySteps(after, today, dayOf, 0) == TodaySteps(acts, today, dayOf, count)
            && TodayCalories(after, today, dayOf) == TodayCalories(acts, today, dayOf) + count * 4 / 100
            && TodayWorkoutTime(after, today, dayOf) == TodayWorkoutTime(acts, today, dayOf)
  {
    var w := [StepWalk(count, now)];
    TotalsSplit(acts, w, today, dayOf, 0);
    StepsBase(acts, today, dayOf, count);
    assert w[..0] == [];
  }

  /** The live count only shifts the step total. */
  lemma {:induction false} StepsBase(acts: seq<ClientActivity>, today: int, dayOf: int -> int, stepCount: int)
    ensures TodaySteps(acts, today, dayOf, stepCount) == TodaySteps(acts, today, dayOf, 0) + stepCount
  {
    if acts != [] {
      StepsBase(acts[..|acts| - 1], today, dayOf, stepCount);
    }
  }

  /** The page's module-level state. */
  class DashboardState {
    var activities: seq<ClientActivity>
    var goals: seq<ClientGoal>
    var nutritionData: Nutrients
    var stepCount: int
    var isStepTracking: bool

    constructor ()
      ensures activities == [] && goals == [] && nutritionData == Nutrients(0, 0, 0, 0, 0)
      ensures stepCount == 0 && !isStepTracking
    {
      activities, goals := [], [];
      nutritionData := Nutrients(0, 0, 0, 0, 0);
      stepCount, isStepTracking := 0, false;
    }

    /** `startStepTracking`: tracking on, the count back at zero. */
    method StartStepTracking()
      modifies this`isStepTracking, this`stepCount
      ensures isStepTracking && stepCount == 0
    {
      isStepTracking := true;
      stepCount := 0;
    }

    /** `stopStepTracking`: tracking off; a positive count is recorded as one
        walk at the end of the list and the count goes back to zero. */
    method StopStepTracking(now: int)
      modifies this`isStepTracking, this`stepCount, this`activities
      ensures !isStepTracking
      ensures old(stepCount) > 0 ==> activities == old(activities) + [StepWalk(old(stepCount), now)] && stepCount == 0
      ensures old(stepCount) <= 0 ==> activities == old(activities) && stepCount == old(stepCount)
    {
      isStepTracking := false;
      if stepCount > 0 {
        activities := activities + [StepWalk(stepCount, now)];
        stepCount := 0;
      }
    }

    /** `loadGoals`: an empty list is replaced by the two default goals; a
        list with goals is kept. Either way the page then has goals. */
    method LoadGoals(now: int)
      modifies this`goals
      ensures |goals| > 0
      ensures old(goals) == [] ==> goals == DefaultGoals(now)
      ensures old(goals) != [] ==> goals == old(goals)
    {
      if |goals| == 0 {
        goals := DefaultGoals(now);
      }
    }

    /** `loadNutritionFromAPI`: the first entry of today, if the request
        gave one, sets the totals, with a missing figure as 0; otherwise,
        and when the request fails (`None`), the totals stay. */
    method LoadNutrition(data: Option<seq<Doc>>, today: int, dayOf: int -> int)
      modifies this`nutritionData
      ensures data.Some? && FirstToday(data.value, today, dayOf).Some? ==>
                nutritionData == TotalsOf(data.value[FirstToday(data.value, today, dayOf).value])
      ensures data.None? || FirstToday(data.value, today, dayOf).None? ==> nutritionData == old(nutritionData)
    {
      if data.Some? && |data.value| > 0 {
        var found := FirstToday(data.value, today, dayOf);
        if found.Some? {
          nutritionData := TotalsOf(data.value[found.value]);
        }
      }
    }
  }
}
