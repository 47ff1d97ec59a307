/**
 * AQI categories for map markers and the marker filter
 * (`frontend/lib/map-aqi.ts`).  The AQI values reaching these helpers come
 * from JSON or from `value || 0`, so they are finite and modelled as reals.
 */
module MapAqi {
  datatype CategoryKey = Good | Moderate | Unhealthy | Critical

  /** `'all'` or one category key. */
  datatype SensorFilter = All | Only(key: CategoryKey)

  datatype AqiCategory = AqiCategory(
    key: CategoryKey,
    title: string,
    color: string,
    ringClass: string,
    bgClass: string,
    isDangerous: bool)

  /** The constant `CATEGORIES` table, with the key spread in. */
  function Style(key: CategoryKey): (c: AqiCategory)
    ensures c.key == key
    ensures c.isDangerous <==> key == Critical
  {
    match key
    case Good => AqiCategory(Good, "Good", "#00e400", "ring-green-500/60", "bg-[#00e400]", false)
    case Moderate => AqiCategory(Moderate, "Moderate", "#ffff00", "ring-yellow-400/60", "bg-[#ffff00]", false)
    case Unhealthy => AqiCategory(Unhealthy, "Unhealthy", "#ff7e00", "ring-orange-500/60", "bg-[#ff7e00]", false)
    case Critical => AqiCategory(Critical, "Critical", "#7e0023", "ring-red-600/70", "bg-[#7e0023]", true)
  }

  /** Position of a category on the scale, from best to worst. */
  function Severity(key: CategoryKey): nat {
    match key
    case Good => 0
    case Moderate => 1
    case Unhealthy => 2
    case Critical => 3
  }

  /** `getAqiCategory` */
  function GetAqiCategory(aqi: real): (c: AqiCategory)
    ensures c == Style(c.key)
    ensures c.key == Good <==> aqi <= 50.0
    ensures c.key == Moderate <==> 50.0 < aqi <= 100.0
    ensures c.key == Unhealthy <==> 100.0 < aqi <= 200.0
    ensures c.key == Critical <==> 200.0 < aqi
  {
    var key := if aqi <= 50.0 then Good
               else if aqi <= 100.0 then Moderate
               else if aqi <= 200.0 then Unhealthy
               else Critical;
    Style(key)
  }

  /** A higher AQI never gets a better category. */
  lemma CategoryMonotone(a: real, b: real)
    requires a <= b
    ensures Severity(GetAqiCategory(a).key) <= Severity(GetAqiCategory(b).key)
  {
  }

  /** Only the critical category is dangerous, i.e. exactly the AQI values above 200. */
  lemma DangerousIffAbove200(aqi: real)
    ensures GetAqiCategory(aqi).isDangerous <==> aqi > 200.0
  {
  }

  /** `getAqiColor`: the colour of the category. */
  function GetAqiColor(aqi: real): (color: string)
    ensures color == GetAqiCategory(aqi).color
    ensures color in ["#00e400", "#ffff00", "#ff7e00", "#7e0023"]
    ensures aqi <= 50.0 ==> color == "#00e400"
    ensures aqi > 200.0 ==> color == "#7e0023"
  {
    GetAqiCategory(aqi).color
  }

  /** `sensorMatchesFilter` */
  function SensorMatchesFilter(aqi: real, filter: SensorFilter): (b: bool)
    ensures filter.All? ==> b
    ensures filter.Only? ==> (b <==> GetAqiCategory(aqi).key == filter.key)
  {
    match filter
    case All => true
    case Only(key) => GetAqiCategory(aqi).key == key
  }

  /** `SENSOR_FILTER_OPTIONS` */
  const SensorFilterOptions: seq<(SensorFilter, string)> := [
    (All, "All"),
    (Only(Good), "Good"),
    (Only(Moderate), "Moderate"),
    (Only(Unhealthy), "Unhealthy"),
    (Only(Critical), "Critical")
  ]

  /**
   * The first option is 'all'; every other option names a distinct
   * category and carries that category's title.
   */
  lemma FilterOptionsCoverCategories()
    ensures SensorFilterOptions[0].0 == All
    ensures forall i :: 1 <= i < |SensorFilterOptions| ==>
      SensorFilterOptions[i].0.Only? && SensorFilterOptions[i].1 == Style(SensorFilterOptions[i].0.key).title
    ensures forall k: CategoryKey :: exists i :: 1 <= i < |SensorFilterOptions| && SensorFilterOptions[i].0 == Only(k)
  {
    forall k: CategoryKey ensures exists i :: 1 <= i < |SensorFilterOptions| && SensorFilterOptions[i].0 == Only(k) {
      assert SensorFilterOptions[1 + Severity(k)].0 == Only(k);
    }
  }

  /** Every AQI matches exactly one of the options other than 'all'. */
  lemma ExactlyOneOptionMatches(aqi: real)
    ensures exists i :: 1 <= i < |SensorFilterOptions| && SensorMatchesFilter(aqi, SensorFilterOptions[i].0)
    ensures forall i, j ::
      (1 <= i < |SensorFilterOptions| && 1 <= j < |SensorFilterOptions|
       && SensorMatchesFilter(aqi, SensorFilterOptions[i].0) && SensorMatchesFilter(aqi, SensorFilterOptions[j].0)) ==> i == j
  {
    var k := GetAqiCategory(aqi).key;
    assert SensorFilterOptions[1 + Severity(k)].0 == Only(k);
  }
}
