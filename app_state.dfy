/**
 * The browser application's global state: the current project (a list of
 * cabinet records), the calculation history (newest first, at most 100
 * entries), the pricing profiles by name and the user settings, with the
 * operations that change them and the project statistics. Persisting to
 * storage is not part of this model; the clock readings the history and
 * the profiles stamp are parameters.
 */
module AppState {
  import opened Wrappers
  import opened Text
  import opened Sums

  /** A JavaScript value held in a record field. */
  datatype Value = Num(n: int) | Str(s: string) | Bool(b: bool) | Null

  /** A plain object: field name to value. */
  type Record = map<string, Value>

  /** `{...a, ...b}`: the fields of b win. */
  function Spread(a: Record, b: Record): (r: Record)
    ensures r.Keys == a.Keys + b.Keys
    ensures forall k :: k in b ==> r[k] == b[k]
    ensures forall k :: k in a && k !in b ==> r[k] == a[k]
  {
    a + b
  }

  const HistoryLimit := 100

  /** The history after addToHistory: the entry in front, then cut to the limit. */
  function Prepended(history: seq<Record>, entry: Record): seq<Record> {
    var h := [entry] + history;
    if |h| > HistoryLimit then h[..HistoryLimit] else h
  }

  /** The new entry is first, the older ones follow in order, and at most 100 are kept. */
  lemma PrependedKeepsNewest(history: seq<Record>, entry: Record)
    ensures var h := Prepended(history, entry);
      |h| == (if |history| < HistoryLimit then |history| + 1 else HistoryLimit)
      && h[0] == entry
      && h[1..] == history[..|h| - 1]
  {
    var h := Prepended(history, entry);
    assert ([entry] + history)[1..] == history;
  }

  /** A history within the limit stays within it. */
  lemma PrependedBounded(history: seq<Record>, entry: Record)
    ensures |Prepended(history, entry)| <= HistoryLimit
    ensures |history| <= HistoryLimit ==> |Prepended(history, entry)| >= |history|
  {
  }

  /** The stored history entry: the calculation with its stamp and id. */
  function Stamped(calculation: Record, timestamp: string, id: string): (r: Record)
    ensures "timestamp" in r && r["timestamp"] == Str(timestamp) && "id" in r && r["id"] == Str(id)
    ensures forall k :: k in calculation && k != "timestamp" && k != "id" ==> k in r && r[k] == calculation[k]
  {
    Spread(calculation, map["timestamp" := Str(timestamp), "id" := Str(id)])
  }

  /** The stored pricing profile: the data with its name and modification stamp. */
  function NamedProfile(name: string, data: Record, modified: string): (r: Record)
    ensures "name" in r && r["name"] == Str(name) && "lastModified" in r && r["lastModified"] == Str(modified)
    ensures forall k :: k in data && k != "name" && k != "lastModified" ==> k in r && r[k] == data[k]
  {
    Spread(data, map["name" := Str(name), "lastModified" := Str(modified)])
  }

  // ----------------------------------------------------------- statistics

  /** `value || 0` on a number field; a missing, null or non-numeric field counts 0. */
  function NumberOr0(r: Record, field: string): int {
    if field in r && r[field].Num? then r[field].n else 0
  }

  /** The key `stats.byType[cabinet.type]` uses: the type converted to a property name. */
  function TypeKey(r: Record): string {
    if "type" !in r then "undefined"
    else match r["type"]
      case Num(n) => IntToString(n)
      case Str(s) => s
      case Bool(b) => if b then "true" else "false"
      case Null => "null"
  }

  datatype Stats = Stats(totalCabinets: int, byType: map<string, int>, totalWidth: int, totalHeight: int, totalDepth: int)

  function Tally(m: map<string, int>, key: string): map<string, int> {
    m[key := (if key in m then m[key] else 0) + 1]
  }

  /** The statistics over a list of records, one record at a time as the forEach goes. */
  function StatsOf(project: seq<Record>): Stats {
    if project == [] then Stats(0, map[], 0, 0, 0)
    else
      var s := StatsOf(project[..|project| - 1]);
      var r := project[|project| - 1];
      Stats(|project|, Tally(s.byType, TypeKey(r)),
            s.totalWidth + NumberOr0(r, "width"), s.totalHeight + NumberOr0(r, "height"),
            s.totalDepth + NumberOr0(r, "depth"))
  }

  function Width(r: Record): int { NumberOr0(r, "width") }
  function Height(r: Record): int { NumberOr0(r, "height") }
  function Depth(r: Record): int { NumberOr0(r, "depth") }

  /** The size totals are the sums of the fields, a missing one counting 0. */
  lemma {:induction false} StatsTotals(project: seq<Record>)
    ensures StatsOf(project).totalCabinets == |project|
    ensures StatsOf(project).totalWidth == SumOf(project, Width)
    ensures StatsOf(project).totalHeight == SumOf(project, Height)
    ensures StatsOf(project).totalDepth == SumOf(project, Depth)
  {
    if project != [] {
      StatsTotals(project[..|project| - 1]);
    }
  }

  /** The number of records of one type. */
  function TypeCount(project: seq<Record>, key: string): int {
    SumOf(project, (r: Record) => if TypeKey(r) == key then 1 else 0)
  }

  /** byType counts each type's records, and only types that occur are keys. */
  lemma {:induction false} ByTypeCounts(project: seq<Record>, key: string)
    ensures key in StatsOf(project).byType <==> exists i :: 0 <= i < |project| && TypeKey(project[i]) == key
    ensures key in StatsOf(project).byType ==> StatsOf(project).byType[key] == TypeCount(project, key)
  {
    if project != [] {
      var front := project[..|project| - 1];
      ByTypeCounts(front, key);
      if exists i :: 0 <= i < |front| && TypeKey(front[i]) == key {
        var i :| 0 <= i < |front| && TypeKey(front[i]) == key;
        assert TypeKey(project[i]) == key;
      }
      if exists i :: 0 <= i < |project| && TypeKey(project[i]) == key {
        var i :| 0 <= i < |project| && TypeKey(project[i]) == key;
        if i < |front| {
          assert TypeKey(front[i]) == key;
        }
      }
      assert front + [project[|project| - 1]] == project;
      SumOfSnoc(front, project[|project| - 1], (r: Record) => if TypeKey(r) == key then 1 else 0);
      if key !in StatsOf(front).byType {
        SumOfZero(front, key);
      }
    }
  }

  /** A type that no record has counts 0. */
  lemma {:induction false} SumOfZero(project: seq<Record>, key: string)
    requires forall i :: 0 <= i < |project| ==> TypeKey(project[i]) != key
    ensures TypeCount(project, key) == 0
  {
    if project != [] {
      SumOfZero(project[..|project| - 1], key);
    }
  }

  /** The sum of a map's values. */
  ghost function SumValues(m: map<string, int>): int
    decreases |m.Keys|
  {
    if m == map[] then 0
    else
      var k := PickKey(m);
      m[k] + SumValues(m - {k})
  }

  ghost function PickKey(m: map<string, int>): (k: string)
    requires m != map[]
    ensures k in m
  {
    var k :| k in m; k
  }

  /** Any key may be taken out first. */
  lemma {:induction false} SumValuesWithout(m: map<string, int>, k: string)
    requires k in m
    ensures SumValues(m) == m[k] + SumValues(m - {k})
    decreases |m.Keys|
  {
    var j := PickKey(m);
    if j != k {
      var rest := m - {j};
      assert k in rest;
      SumValuesWithout(rest, k);
      assert rest - {k} == (m - {k}) - {j};
      assert (m - {k})[j] == m[j];
      SumValuesWithout(m - {k}, j);
      assert |(m - {k}).Keys| < |m.Keys| by {
        assert (m - {k}).Keys < m.Keys;
      }
    }
  }

  /** Counting one more record of a type adds one to the sum of the counts. */
  lemma TallySum(m: map<string, int>, key: string)
    ensures SumValues(Tally(m, key)) == SumValues(m) + 1
  {
    var t := Tally(m, key);
    SumValuesWithout(t, key);
    if key in m {
      SumValuesWithout(m, key);
      assert t - {key} == m - {key};
    } else {
      assert t - {key} == m;
    }
  }

  /** The byType counts sum to the number of cabinets. */
  lemma {:induction false} ByTypeSumsToTotal(project: seq<Record>)
    ensures SumValues(StatsOf(project).byType) == StatsOf(project).totalCabinets == |project|
  {
    if project != [] {
      ByTypeSumsToTotal(project[..|project| - 1]);
      TallySum(StatsOf(project[..|project| - 1]).byType, TypeKey(project[|project| - 1]));
    }
  }

  // ---------------------------------------------------------------- state

  class State {
    var currentProject: seq<Record>
    var calculationHistory: seq<Record>
    var pricingProfiles: map<string, Record>
    var userSettings: Record

    /** The state as loaded from storage. */
    constructor (project: seq<Record>, history: seq<Record>, profiles: map<string, Record>, settings: Record)
      ensures currentProject == project && calculationHistory == history
      ensures pricingProfiles == profiles && userSettings == settings
    {
      currentProject := project;
      calculationHistory := history;
      pricingProfiles := profiles;
      userSettings := settings;
    }

    /** addToProject: exactly one cabinet is appended at the end. */
    method AddToProject(cabinet: Record) returns (project: seq<Record>)
      modifies this
      ensures currentProject == old(currentProject) + [cabinet] && project == currentProject
      ensures calculationHistory == old(calculationHistory) && pricingProfiles == old(pricingProfiles)
      ensures userSettings == old(userSettings)
    {
      currentProject := currentProject + [cabinet];
      project := currentProject;
    }

    /** removeFromProject: element index goes when it exists; otherwise nothing changes. */
    method RemoveFromProject(index: int) returns (project: seq<Record>)
      modifies this
      ensures 0 <= index < |old(currentProject)| ==>
                currentProject == old(currentProject)[..index] + old(currentProject)[index + 1..]
      ensures !(0 <= index < |old(currentProject)|) ==> currentProject == old(currentProject)
      ensures project == currentProject
      ensures calculationHistory == old(calculationHistory) && pricingProfiles == old(pricingProfiles)
      ensures userSettings == old(userSettings)
    {
      if index >= 0 && index < |currentProject| {
        currentProject := currentProject[..index] + currentProject[index + 1..];
      }
      project := currentProject;
    }

    method ClearProject() returns (project: seq<Record>)
      modifies this
      ensures currentProject == [] && project == []
      ensures calculationHistory == old(calculationHistory) && pricingProfiles == old(pricingProfiles)
      ensures userSettings == old(userSettings)
    {
      currentProject := [];
      project := currentProject;
    }

    /** updateProjectCabinet: the updates are spread over element index only, when it exists. */
    method UpdateProjectCabinet(index: int, updates: Record) returns (project: seq<Record>)
      modifies this
      ensures 0 <= index < |old(currentProject)| ==>
                currentProject == old(currentProject)[index := Spread(old(currentProject)[index], updates)]
      ensures !(0 <= index < |old(currentProject)|) ==> currentProject == old(currentProject)
      ensures project == currentProject
      ensures calculationHistory == old(calculationHistory) && pricingProfiles == old(pricingProfiles)
      ensures userSettings == old(userSettings)
    {
      if index >= 0 && index < |currentProject| {
        currentProject := currentProject[index := Spread(currentProject[index], updates)];
      }
      project := currentProject;
    }

    /** addToHistory: the stamped entry goes in front and the history is cut to 100. */
    method AddToHistory(calculation: Record, timestamp: string, id: string) returns (history: seq<Record>)
      modifies this
      ensures calculationHistory == Prepended(old(calculationHistory), Stamped(calculation, timestamp, id))
      ensures history == calculationHistory
      ensures currentProject == old(currentProject) && pricingProfiles == old(pricingProfiles)
      ensures userSettings == old(userSettings)
    {
      calculationHistory := [Stamped(calculation, timestamp, id)] + calculationHistory;
      if |calculationHistory| > HistoryLimit {
        calculationHistory := calculationHistory[..HistoryLimit];
      }
      history := calculationHistory;
    }

    method ClearHistory() returns (history: seq<Record>)
      modifies this
      ensures calculationHistory == [] && history == []
      ensures currentProject == old(currentProject) && pricingProfiles == old(pricingProfiles)
      ensures userSettings == old(userSettings)
    {
      calculationHistory := [];
      history := calculationHistory;
    }

    /** savePricingProfile: only the named profile is written. */
    method SavePricingProfile(name: string, data: Record, modified: string) returns (profiles: map<string, Record>)
      modifies this
      ensures pricingProfiles == old(pricingProfiles)[name := NamedProfile(name, data, modified)]
      ensures profiles == pricingProfiles
      ensures currentProject == old(currentProject) && calculationHistory == old(calculationHistory)
      ensures userSettings == old(userSettings)
    {
      pricingProfiles := pricingProfiles[name := NamedProfile(name, data, modified)];
      profiles := pricingProfiles;
    }

    /** loadPricingProfile: the stored profile, or null. */
    method LoadPricingProfile(name: string) returns (profile: Option<Record>)
      ensures profile.Some? <==> name in pricingProfiles
      ensures profile.Some? ==> profile.value == pricingProfiles[name]
    {
      if name in pricingProfiles {
        profile := Some(pricingProfiles[name]);
      } else {
        profile := None;
      }
    }

    /** deletePricingProfile: only the named profile is removed. */
    method DeletePricingProfile(name: string) returns (profiles: map<string, Record>)
      modifies this
      ensures pricingProfiles == old(pricingProfiles) - {name}
      ensures profiles == pricingProfiles
      ensures currentProject == old(currentProject) && calculationHistory == old(calculationHistory)
      ensures userSettings == old(userSettings)
    {
      pricingProfiles := pricingProfiles - {name};
      profiles := pricingProfiles;
    }

    method UpdateUserSettings(settings: Record) returns (merged: Record)
      modifies this
      ensures userSettings == Spread(old(userSettings), settings) && merged == userSettings
      ensures currentProject == old(currentProject) && calculationHistory == old(calculationHistory)
      ensures pricingProfiles == old(pricingProfiles)
    {
      userSettings := Spread(userSettings, settings);
      merged := userSettings;
    }

    method GetProjectCount() returns (n: int)
      ensures n == |currentProject|
    {
      n := |currentProject|;
    }

    method GetHistoryCount() returns (n: int)
      ensures n == |calculationHistory|
    {
      n := |calculationHistory|;
    }

    method GetProfileCount() returns (n: int)
      ensures n == |pricingProfiles.Keys|
    {
      n := |pricingProfiles.Keys|;
    }

    /** getProjectStats: the forEach over the project. */
    method GetProjectStats() returns (stats: Stats)
      ensures stats == StatsOf(currentProject)
    {
      stats := Stats(|currentProject|, map[], 0, 0, 0);
      for i := 0 to |currentProject|
        invariant stats == StatsOf(currentProject[..i]).(totalCabinets := |currentProject|)
      {
        var r := currentProject[i];
        assert currentProject[..i + 1][..i] == currentProject[..i];
        stats := stats.(totalWidth := stats.totalWidth + NumberOr0(r, "width"),
                        totalHeight := stats.totalHeight + NumberOr0(r, "height"),
                        totalDepth := stats.totalDepth + NumberOr0(r, "depth"));
        var key := TypeKey(r);
        if key !in stats.byType {
          stats := stats.(byType := stats.byType[key := 0]);
        }
        stats := stats.(byType := stats.byType[key := stats.byType[key] + 1]);
      }
      assert currentProject[..|currentProject|] == currentProject;
    }
  }

  /** Removing an element that exists shortens the project by one and keeps the rest in order. */
  lemma RemovalKeepsOthers(project: seq<Record>, index: int)
    requires 0 <= index < |project|
    ensures var rest := project[..index] + project[index + 1..];
      |rest| == |project| - 1
      && (forall i :: 0 <= i < index ==> rest[i] == project[i])
      && (forall i :: index <= i < |rest| ==> rest[i] == project[i + 1])
  {
  }
}
