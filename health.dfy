/** The health-metrics screen's derived values: the pet shown, its weight
    trend and latest weight, the exercise and calorie totals the averages
    are built from, and the newest-first weight table with its changes.
    Everything here is computed from values; the history arrays are never
    changed. */
module Health {
  import opened Common

  datatype WeightRecord = WeightRecord(date: string, weight: real)
  datatype DietRecord = DietRecord(date: string, food: string, amount: string, calories: real)
  datatype ExerciseRecord = ExerciseRecord(date: string, activity: string, duration: real, intensity: string)
  datatype Measurements = Measurements(height: string, length: string, lastUpdated: string)

  datatype HealthPet = HealthPet(
    id: string,
    name: string,
    petType: string,
    breed: string,
    weightHistory: seq<WeightRecord>,
    dietHistory: seq<DietRecord>,
    exerciseHistory: seq<ExerciseRecord>,
    measurements: Measurements)

  datatype Trend = Increasing | Decreasing | Stable

  /** The trend of a weight history (oldest first), judged on its last two
      records only. */
  function WeightTrend(history: seq<WeightRecord>): (t: Trend)
    ensures |history| < 2 ==> t == Stable
    ensures |history| >= 2 ==>
      (t == Increasing <==> history[|history| - 1].weight > history[|history| - 2].weight)
    ensures |history| >= 2 ==>
      (t == Decreasing <==> history[|history| - 1].weight < history[|history| - 2].weight)
    ensures |history| >= 2 ==>
      (t == Stable <==> history[|history| - 1].weight == history[|history| - 2].weight)
  {
    if |history| < 2 then Stable
    else
      var latest := history[|history| - 1].weight;
      var previous := history[|history| - 2].weight;
      if latest > previous then Increasing
      else if latest < previous then Decreasing
      else Stable
  }

  /** Records before the last two never change the trend. */
  lemma TrendIgnoresOlderRecords(older: seq<WeightRecord>, recent: seq<WeightRecord>)
    requires |recent| >= 2
    ensures WeightTrend(older + recent) == WeightTrend(recent)
  {
    var h := older + recent;
    assert h[|h| - 1] == recent[|recent| - 1];
    assert h[|h| - 2] == recent[|recent| - 2];
  }

  function IdIs(id: string): HealthPet -> bool
  {
    (p: HealthPet) => p.id == id
  }

  /** The pet shown: the first pet with the selected id, or else the first
      pet; with no pets there is none. */
  function CurrentPet(pets: seq<HealthPet>, selected: string): (r: Option<HealthPet>)
    ensures r.None? <==> pets == []
    ensures (forall i :: 0 <= i < |pets| ==> pets[i].id != selected) && pets != [] ==> r == Some(pets[0])
    ensures (exists i :: 0 <= i < |pets| && pets[i].id == selected) ==>
      exists i :: IsFirstMatch(pets, IdIs(selected), i) && r == Some(pets[i])
  {
    var found := Find(pets, IdIs(selected));
    if found.Some? then found
    else if pets == [] then None
    else Some(pets[0])
  }

  /** The "Current Weight" card: the weight of the newest record; an empty
      history has none. */
  function LatestWeight(history: seq<WeightRecord>): (w: Option<real>)
    ensures w.None? <==> history == []
    ensures w.Some? ==> w.value == history[|history| - 1].weight
    ensures history != [] ==> WeightTrend(history) == Increasing ==> w.value > history[|history| - 2].weight
  {
    if history == [] then None else Some(history[|history| - 1].weight)
  }

  /** `s.reduce((sum, x) => sum + f(x), 0)`: added up from the first element. */
  function Total<T>(s: seq<T>, f: T -> real): (sum: real)
    ensures (forall i :: 0 <= i < |s| ==> f(s[i]) >= 0.0) ==> sum >= 0.0
    ensures (forall i :: 0 <= i < |s| ==> f(s[i]) == 0.0) ==> sum == 0.0
  {
    if s == [] then 0.0 else Total(s[..|s| - 1], f) + f(s[|s| - 1])
  }

  /** A history split in two totals to the sum of the two parts' totals. */
  lemma {:induction false} TotalAppend<T>(a: seq<T>, b: seq<T>, f: T -> real)
    ensures Total(a + b, f) == Total(a, f) + Total(b, f)
    decreases |b|
  {
    if b == [] {
      assert a + b == a;
    } else {
      assert (a + b)[..|a + b| - 1] == a + b[..|b| - 1];
      TotalAppend(a, b[..|b| - 1], f);
    }
  }

  function DurationOf(e: ExerciseRecord): real
  {
    e.duration
  }

  function CaloriesOf(d: DietRecord): real
  {
    d.calories
  }

  /** The exercise minutes the "Avg. Exercise" card divides by the count. */
  function TotalExercise(p: HealthPet): (minutes: real)
    ensures (forall i :: 0 <= i < |p.exerciseHistory| ==> p.exerciseHistory[i].duration >= 0.0) ==> minutes >= 0.0
    ensures p.exerciseHistory == [] ==> minutes == 0.0
  {
    Total(p.exerciseHistory, DurationOf)
  }

  /** The calories the "Avg. Calories" card divides by the count. */
  function TotalCalories(p: HealthPet): (calories: real)
    ensures (forall i :: 0 <= i < |p.dietHistory| ==> p.dietHistory[i].calories >= 0.0) ==> calories >= 0.0
    ensures p.dietHistory == [] ==> calories == 0.0
  {
    Total(p.dietHistory, CaloriesOf)
  }

  /** A row of the weight table; `change` is absent on the oldest row. */
  datatype WeightRow = WeightRow(date: string, weight: real, change: Option<real>)

  /** The sequence in reverse order (a reversed copy). */
  function Reverse<T>(s: seq<T>): (r: seq<T>)
    ensures |r| == |s|
    ensures forall k :: 0 <= k < |s| ==> r[k] == s[|s| - 1 - k]
  {
    if s == [] then [] else Reverse(s[1..]) + [s[0]]
  }

  /** The rows built from a newest-first list: each row's change is its
      weight minus the weight of the row below it. */
  function Rows(newestFirst: seq<WeightRecord>): (rows: seq<WeightRow>)
    ensures |rows| == |newestFirst|
    ensures forall k :: 0 <= k < |rows| ==>
      rows[k].date == newestFirst[k].date && rows[k].weight == newestFirst[k].weight
    ensures forall k :: 0 <= k < |rows| - 1 ==>
      rows[k].change == Some(newestFirst[k].weight - newestFirst[k + 1].weight)
    ensures rows != [] ==> rows[|rows| - 1].change == None
  {
    if newestFirst == [] then []
    else
      var r := newestFirst[0];
      var change := if |newestFirst| > 1 then Some(r.weight - newestFirst[1].weight) else None;
      [WeightRow(r.date, r.weight, change)] + Rows(newestFirst[1..])
  }

  /** The "Weight Records" table: newest record first, each row's change
      against the next older record, no change on the oldest row. */
  function WeightTable(history: seq<WeightRecord>): (table: seq<WeightRow>)
    ensures |table| == |history|
    ensures forall k :: 0 <= k < |history| ==>
      table[k].date == history[|history| - 1 - k].date
      && table[k].weight == history[|history| - 1 - k].weight
    ensures forall k :: 0 <= k < |history| - 1 ==>
      table[k].change == Some(history[|history| - 1 - k].weight - history[|history| - 2 - k].weight)
    ensures history != [] ==> table[|history| - 1].change == None
  {
    var newestFirst := Reverse(history);
    var rows := Rows(newestFirst);
    assert forall k :: 0 <= k < |history| - 1 ==>
      rows[k].change == Some(history[|history| - 1 - k].weight - history[|history| - 2 - k].weight)
    by {
      forall k | 0 <= k < |history| - 1
        ensures rows[k].change == Some(history[|history| - 1 - k].weight - history[|history| - 2 - k].weight)
      {
        assert newestFirst[k + 1] == history[|history| - 1 - (k + 1)];
      }
    }
    rows
  }

  /** Colour of a change in the table: a gain is red, a loss green. */
  function ChangeColour(change: real): (colour: string)
    ensures colour == "text-red-500" <==> change > 0.0
    ensures colour == "text-green-500" <==> change < 0.0
    ensures colour == "text-muted-foreground" <==> change == 0.0
  {
    if change > 0.0 then "text-red-500"
    else if change < 0.0 then "text-green-500"
    else "text-muted-foreground"
  }

  /** Colour of the trend line under the current weight. */
  function TrendColour(t: Trend): (colour: string)
    ensures colour == "text-red-500" <==> t == Increasing
    ensures colour == "text-green-500" <==> t == Decreasing
    ensures colour == "text-muted-foreground" <==> t == Stable
  {
    match t
    case Increasing => "text-red-500"
    case Decreasing => "text-green-500"
    case Stable => "text-muted-foreground"
  }

  /** The table's top row and the trend line agree: the newest change has
      the trend's colour. */
  lemma NewestChangeMatchesTrend(history: seq<WeightRecord>)
    requires |history| >= 2
    ensures WeightTable(history)[0].change.Some?
    ensures ChangeColour(WeightTable(history)[0].change.value) == TrendColour(WeightTrend(history))
  {
  }

  /** Sum of the changes shown in the table, top row first. */
  function ShownChangeTotal(rows: seq<WeightRow>): real
  {
    if rows == [] then 0.0
    else (match rows[0].change case Some(c) => c case None => 0.0) + ShownChangeTotal(rows[1..])
  }

  /** The changes in the table add up to the newest weight minus the oldest. */
  lemma ChangesAddUp(history: seq<WeightRecord>)
    requires history != []
    ensures ShownChangeTotal(WeightTable(history)) == history[|history| - 1].weight - history[0].weight
  {
    RowsChangesAddUp(Reverse(history));
  }

  lemma {:induction false} RowsChangesAddUp(newestFirst: seq<WeightRecord>)
    requires newestFirst != []
    ensures ShownChangeTotal(Rows(newestFirst))
      == newestFirst[0].weight - newestFirst[|newestFirst| - 1].weight
  {
    var rows := Rows(newestFirst);
    if |newestFirst| > 1 {
      RowsChangesAddUp(newestFirst[1..]);
      assert rows[1..] == Rows(newestFirst[1..]);
    }
  }
}
