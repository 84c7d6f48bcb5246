/** The microgrid settings page: one settings record, edited one key at a time. */
module SettingsPage {
  import opened Wrappers

  /** A settings value: a number field, a checkbox or a text field. */
  datatype SettingValue = Number(n: real) | Flag(b: bool) | Text(s: string)

  /** The settings record, keyed by field name. */
  type Settings = map<string, SettingValue>

  const BatteryCapacity: string := "batteryCapacity"
  const MaxChargePower: string := "maxChargePower"
  const MaxDischargePower: string := "maxDischargePower"
  const MinSoc: string := "minSoc"
  const MaxSoc: string := "maxSoc"
  const GridExportEnabled: string := "gridExportEnabled"
  const GridImportEnabled: string := "gridImportEnabled"
  const SimulationStep: string := "simulationStep"
  const Location: string := "location"
  const Timezone: string := "timezone"

  /** The initial record: 50 kWh, 10 kW charge, 15 kW discharge, SOC 20 % to 95 %,
      export and import allowed, a 60-minute step, Karaganda in the Almaty time zone. */
  function Defaults(): (s: Settings)
    ensures s.Keys == {BatteryCapacity, MaxChargePower, MaxDischargePower, MinSoc, MaxSoc,
                       GridExportEnabled, GridImportEnabled, SimulationStep, Location, Timezone}
    ensures s[BatteryCapacity] == Number(50.0) && s[MaxChargePower] == Number(10.0)
    ensures s[MaxDischargePower] == Number(15.0)
    ensures s[MinSoc] == Number(20.0) && s[MaxSoc] == Number(95.0)
    ensures s[GridExportEnabled] == Flag(true) && s[GridImportEnabled] == Flag(true)
    ensures s[SimulationStep] == Number(60.0)
    ensures s[Location] == Text("Караганда, Казахстан") && s[Timezone] == Text("Asia/Almaty")
  {
    map[
      BatteryCapacity := Number(50.0),
      MaxChargePower := Number(10.0),
      MaxDischargePower := Number(15.0),
      MinSoc := Number(20.0),
      MaxSoc := Number(95.0),
      GridExportEnabled := Flag(true),
      GridImportEnabled := Flag(true),
      SimulationStep := Number(60.0),
      Location := Text("Караганда, Казахстан"),
      Timezone := Text("Asia/Almaty")]
  }

  /** `handleChange(key, value)`: `{ ...prev, [key]: value }`. */
  function Change(s: Settings, key: string, value: SettingValue): (r: Settings)
    ensures r.Keys == s.Keys + {key}
    ensures r[key] == value
    ensures forall k :: k in s && k != key ==> r[k] == s[k]
  {
    s[key := value]
  }

  /** `handleNumberChange(key, value)`. `parsed` is `parseFloat(value)`, `None` standing
      for `NaN`: the number is stored only when there is one and it is not negative. */
  function NumberChange(s: Settings, key: string, parsed: Option<real>): (r: Settings)
    ensures parsed.None? ==> r == s
    ensures parsed.Some? && parsed.value < 0.0 ==> r == s
    ensures parsed.Some? && parsed.value >= 0.0 ==> r == Change(s, key, Number(parsed.value))
  {
    if parsed.Some? && parsed.value >= 0.0 then Change(s, key, Number(parsed.value)) else s
  }

  /** One edit of a number field: the key and what `parseFloat` made of the input. */
  datatype NumberEdit = NumberEdit(key: string, parsed: Option<real>)

  predicate Accepted(e: NumberEdit)
  {
    e.parsed.Some? && e.parsed.value >= 0.0
  }

  /** The edits applied in order. */
  function ApplyNumberEdits(s: Settings, edits: seq<NumberEdit>): Settings
    decreases |edits|
  {
    if edits == [] then s
    else ApplyNumberEdits(NumberChange(s, edits[0].key, edits[0].parsed), edits[1..])
  }

  /** The keys some accepted edit wrote to. */
  ghost function StoredKeys(edits: seq<NumberEdit>): set<string>
  {
    set i | 0 <= i < |edits| && Accepted(edits[i]) :: edits[i].key
  }

  /** A field that no accepted edit wrote to keeps its value, no other key appears, and
      each field one did write to holds a number that is not negative. */
  lemma {:induction false} NumberEditsAreGuarded(s: Settings, edits: seq<NumberEdit>)
    ensures var r := ApplyNumberEdits(s, edits);
            && r.Keys == s.Keys + StoredKeys(edits)
            && (forall k :: k in s && k !in StoredKeys(edits) ==> r[k] == s[k])
            && (forall k :: k in StoredKeys(edits) ==> r[k].Number? && r[k].n >= 0.0)
    decreases |edits|
  {
    if edits != [] {
      var e := edits[0];
      var s1 := NumberChange(s, e.key, e.parsed);
      NumberEditsAreGuarded(s1, edits[1..]);
      assert StoredKeys(edits) == (if Accepted(e) then {e.key} else {}) + StoredKeys(edits[1..]) by {
        forall k | k in StoredKeys(edits) ensures k in (if Accepted(e) then {e.key} else {}) + StoredKeys(edits[1..]) {
          var i :| 0 <= i < |edits| && Accepted(edits[i]) && edits[i].key == k;
          if i > 0 {
            assert edits[1..][i - 1] == edits[i];
          }
        }
        forall k | k in StoredKeys(edits[1..]) ensures k in StoredKeys(edits) {
          var i :| 0 <= i < |edits[1..]| && Accepted(edits[1..][i]) && edits[1..][i].key == k;
          assert edits[i + 1] == edits[1..][i];
        }
      }
    }
  }

  /** Every number field is non-negative. */
  predicate NumbersNonNegative(s: Settings)
  {
    forall k :: k in s && s[k].Number? ==> s[k].n >= 0.0
  }

  /** The defaults have no negative number, and no sequence of number edits produces one. */
  lemma {:induction false} NumberEditsKeepNonNegative(s: Settings, edits: seq<NumberEdit>)
    requires NumbersNonNegative(s)
    ensures NumbersNonNegative(ApplyNumberEdits(s, edits))
    decreases |edits|
  {
    if edits != [] {
      NumberEditsKeepNonNegative(NumberChange(s, edits[0].key, edits[0].parsed), edits[1..]);
    }
  }

  lemma DefaultsNonNegative()
    ensures NumbersNonNegative(Defaults())
  {
  }

  /** The component state of the page. */
  class SettingsForm {
    var settings: Settings

    constructor ()
      ensures settings == Defaults()
    {
      settings := Defaults();
    }

    method HandleChange(key: string, value: SettingValue)
      modifies this`settings
      ensures settings == Change(old(settings), key, value)
    {
      settings := settings[key := value];
    }

    method HandleNumberChange(key: string, parsed: Option<real>)
      modifies this`settings
      ensures settings == NumberChange(old(settings), key, parsed)
    {
      if parsed.Some? && parsed.value >= 0.0 {
        HandleChange(key, Number(parsed.value));
      }
    }
  }
}
