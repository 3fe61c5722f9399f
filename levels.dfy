/** Notification severities: the built-in defaults and the configured overrides. */
module Levels {

  /** A value read from the `LogLevels` table of the configuration file. */
  datatype Setting = IntSetting(i: int) | BoolSetting(b: bool) | OtherSetting

  /** The built-in severity of every notification category. */
  const Defaults: map<string, int> := map[
    "ScanEasy" := 1, "ScanHard" := 2, "KillEasy" := 2, "KillHard" := 2,
    "FighterHull" := 2, "FighterDown" := 3, "ShipShields" := 3, "ShipHull" := 3,
    "Died" := 3, "CargoLost" := 3, "BaitValueLow" := 2, "SecurityScan" := 2,
    "SecurityAttack" := 3, "FuelLow" := 2, "FuelCritical" := 3, "FuelReport" := 1,
    "Missions" := 2, "MissionsAll" := 3, "Merits" := 0, "SummaryKills" := 2,
    "SummaryBounties" := 2, "SummaryMerits" := 2, "NoKills" := 3, "KillRate" := 3]

  /**
   * The level table the monitor builds at start-up: every default category,
   * with the configured value where the configuration has one.
   */
  function LevelTable(overrides: map<string, Setting>): (table: map<string, Setting>)
    ensures table.Keys == Defaults.Keys
    ensures forall k :: k in table ==>
      table[k] == (if k in overrides then overrides[k] else IntSetting(Defaults[k]))
  {
    map k | k in Defaults :: if k in overrides then overrides[k] else IntSetting(Defaults[k])
  }

  /** The level `getloglevel` returns and whether it printed its fallback warning. */
  datatype Pick = Pick(level: int, warned: bool)

  /**
   * `getloglevel(key)`: an integer setting wins (a boolean is an integer in
   * Python, so true is 1 and false is 0); anything else falls back to the
   * built-in default, or 1 for an unknown category, with a warning.
   */
  function GetLogLevel(table: map<string, Setting>, key: string): (p: Pick)
    ensures !p.warned <==> key in table && !table[key].OtherSetting?
    ensures key in table && table[key].IntSetting? ==> p.level == table[key].i
    ensures key in table && table[key].BoolSetting? ==> p.level == (if table[key].b then 1 else 0)
    ensures p.warned ==> p.level == (if key in Defaults then Defaults[key] else 1)
  {
    if key in table && table[key].IntSetting? then Pick(table[key].i, false)
    else if key in table && table[key].BoolSetting? then Pick(if table[key].b then 1 else 0, false)
    else Pick(if key in Defaults then Defaults[key] else 1, true)
  }

  /**
   * A category missing from the configuration gets its default level without a
   * warning; a warning appears only for a configured value that is not an integer.
   */
  lemma LevelTableFallback(overrides: map<string, Setting>, key: string)
    requires key in Defaults
    ensures GetLogLevel(LevelTable(overrides), key).warned <==>
      key in overrides && overrides[key].OtherSetting?
    ensures key !in overrides ==> GetLogLevel(LevelTable(overrides), key) == Pick(Defaults[key], false)
    ensures GetLogLevel(LevelTable(overrides), key).warned ==>
      GetLogLevel(LevelTable(overrides), key).level == Defaults[key]
  {
  }
}
