/**
 * Journal records, as the event processor sees them once a line has been parsed.
 * One constructor per recognised event kind carries the fields its handler reads;
 * `Other` stands for every kind the processor ignores; its tag is the record's
 * `event` name, which for a well-formed record is none of the recognised names.
 */
module Journal {
  import opened Wrappers

  /** One entry of the `Active` list of a `Missions` record. */
  datatype MissionEntry = MissionEntry(name: string, expires: int, missionId: int)

  datatype EndKind = Abandoned | Completed | Failed

  datatype Event =
    | ShipTargeted(ship: Option<string>, shipLocalised: Option<string>, pilotName: Option<string>)
    | Bounty(target: string, targetLocalised: Option<string>, rewards: seq<int>,
             victimFaction: string, victimFactionLocalised: Option<string>)
    | FactionKillBond(reward: int, victimFaction: string, victimFactionLocalised: Option<string>)
    | MissionRedirected(name: string)
    | ReservoirReplenished(fuelMain: real)
    | FighterDestroyed
    | LaunchFighter(playerControlled: bool)
    | ShieldState(shieldsUp: bool)
    | HullDamage(health: real, fighter: bool, playerPilot: bool)
    | Died
    | Music(musicTrack: string)
    | LoadGame(commander: string)
    | Loadout(fuelCapacityMain: real)
    | SupercruiseDestinationDrop(dropType: string, dropTypeLocalised: string)
    | ReceiveText(channel: string, message: string)
    | EjectCargo(cargoType: string, cargoLocalised: Option<string>, count: int, abandoned: bool)
    | Rank(combat: int)
    | Progress(combat: int)
    | Missions(active: Option<seq<MissionEntry>>)
    | MissionAccepted(name: string, missionId: int)
    | MissionEnded(kind: EndKind, missionId: int)
    | PowerplayMerits(meritsGained: int, power: string)
    | Location(bodyType: string)
    | Shutdown
    | SupercruiseEntry(starSystem: string)
    | FSDJump(starSystem: string)
    | Other(tag: string)

  /** A parsed journal line: its timestamp in seconds and its event. */
  datatype Record = Record(timestamp: int, event: Event)

  /** The record's `event` tag. */
  function EventName(e: Event): string {
    match e
    case ShipTargeted(_, _, _) => "ShipTargeted"
    case Bounty(_, _, _, _, _) => "Bounty"
    case FactionKillBond(_, _, _) => "FactionKillBond"
    case MissionRedirected(_) => "MissionRedirected"
    case ReservoirReplenished(_) => "ReservoirReplenished"
    case FighterDestroyed => "FighterDestroyed"
    case LaunchFighter(_) => "LaunchFighter"
    case ShieldState(_) => "ShieldState"
    case HullDamage(_, _, _) => "HullDamage"
    case Died => "Died"
    case Music(_) => "Music"
    case LoadGame(_) => "LoadGame"
    case Loadout(_) => "Loadout"
    case SupercruiseDestinationDrop(_, _) => "SupercruiseDestinationDrop"
    case ReceiveText(_, _) => "ReceiveText"
    case EjectCargo(_, _, _, _) => "EjectCargo"
    case Rank(_) => "Rank"
    case Progress(_) => "Progress"
    case Missions(_) => "Missions"
    case MissionAccepted(_, _) => "MissionAccepted"
    case MissionEnded(k, _) =>
      (match k
       case Abandoned => "MissionAbandoned"
       case Completed => "MissionCompleted"
       case Failed => "MissionFailed")
    case PowerplayMerits(_, _) => "PowerplayMerits"
    case Location(_) => "Location"
    case Shutdown => "Shutdown"
    case SupercruiseEntry(_) => "SupercruiseEntry"
    case FSDJump(_) => "FSDJump"
    case Other(tag) => tag
  }

  /** `x` is one of `xs`: Python's `x in xs` on a list, one element at a time. */
  predicate Listed(x: string, xs: seq<string>)
    decreases |xs|
  {
    xs != [] && (xs[0] == x || Listed(x, xs[1..]))
  }

  lemma {:induction false} ListedIsIn(x: string, xs: seq<string>)
    ensures Listed(x, xs) <==> x in xs
    decreases |xs|
  {
    if xs != [] {
      ListedIsIn(x, xs[1..]);
      assert xs == [xs[0]] + xs[1..];
    }
  }

  /** Ship symbols of the easy and hard difficulty tiers. */
  const ShipsEasy: seq<string> := ["adder", "asp", "asp_scout", "cobramkiii", "cobramkiv",
    "diamondback", "diamondbackxl", "eagle", "empire_courier", "empire_eagle", "krait_light",
    "sidewinder", "viper", "viper_mkiv"]
  const ShipsHard: seq<string> := ["typex", "typex_2", "typex_3", "anaconda",
    "federation_dropship_mkii", "federation_dropship", "federation_gunship", "ferdelance",
    "empire_trader", "krait_mkii", "python", "vulture", "type9_military"]

  /** Message keys of a pirate refusing to engage for lack of cargo value. */
  const BaitMessages: seq<string> := ["$Pirate_ThreatTooHigh", "$Pirate_NotEnoughCargo",
    "$Pirate_OnNoCargoFound"]

  const CombatRanks: seq<string> := ["Harmless", "Mostly Harmless", "Novice", "Competent",
    "Expert", "Master", "Dangerous", "Deadly", "Elite", "Elite I", "Elite II", "Elite III",
    "Elite IV", "Elite V"]
}
