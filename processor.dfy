/**
 * `processevent` over the mutable `Tracking` record and its session: one
 * method per recognised journal event, each proved against the handler of the
 * same event in `Events`. What the monitor would print or send is returned
 * instead of being written out.
 */
module Processor {
  import opened Wrappers
  import opened Text
  import opened Journal
  import opened State
  import opened Events
  import opened Monitor

  /** The kill-rate summary of every tenth kill. */
  method SendRollup(track: Tracking, cfg: Config) returns (out: seq<Emission>, outcome: Outcome)
    modifies track`logged, track`dupeevent, track`duperepeats, track`dupewarn
    ensures Result(track.Abs(), out, outcome) == Rollup(old(track.Abs()), cfg)
  {
    var s := track.session.Abs();
    out, outcome := [], Handled;
    if s.kills % 10 != 0 {
    } else if RollupFaults(cfg, s) {
      outcome := Raised;
    } else {
      var kills := LogEventAt(track, cfg, SessionKills(s.kills), "SummaryKills", None);
      var bounties := LogEventAt(track, cfg, SessionBounties(s.bounties), "SummaryBounties", None);
      out := kills + bounties;
      if s.merits > 0 {
        var merits := LogEventAt(track, cfg, SessionMerits(s.merits), "SummaryMerits", None);
        out := out + merits;
      }
    }
  }

  /** The reward, kill notice and rollup of a kill whose reward is known. */
  method Pay(track: Tracking, cfg: Config, s: SessionState, e: Event, time: int)
    returns (out: seq<Emission>, outcome: Outcome)
    requires IsKill(e) && (e.Bounty? ==> e.rewards != [])
    modifies track, track.session
    ensures Result(track.Abs(), out, outcome) == Payout(old(track.Abs()), cfg, s, e, time)
  {
    track.Credit(e);
    var sent := LogEvent(track, cfg, KillTopic(cfg, s, e, time), KillLevel(cfg, e), None);
    var rolled;
    rolled, outcome := SendRollup(track, cfg);
    out := sent + rolled;
  }

  /** `Bounty` and `FactionKillBond`. */
  method HandleKill(track: Tracking, cfg: Config, time: int, mono: int, e: Event)
    returns (out: seq<Emission>, outcome: Outcome)
    requires IsKill(e)
    modifies track, track.session
    ensures Result(track.Abs(), out, outcome) == OnKill(old(track.Abs()), cfg, time, mono, e)
  {
    track.SessionStart(false, mono);
    var s := track.session.Abs();
    track.CountKill(time, mono);
    out := KillNotes(cfg, e);
    if e.Bounty? && e.rewards == [] {
      outcome := Raised;
    } else {
      var paid;
      paid, outcome := Pay(track, cfg, s, e, time);
      out := out + paid;
    }
  }

  /** A newly scanned combat target. */
  method Scan(track: Tracking, cfg: Config, mono: int, symbol: string, ship: string)
    returns (out: seq<Emission>)
    modifies track, track.session
    ensures Step(track.Abs(), out) == RecordScan(old(track.Abs()), cfg, mono, symbol, ship)
  {
    track.SessionStart(false, mono);
    track.AddScan(ship);
    var hard := !Listed(symbol, ShipsEasy);
    var notes := LevelNotes(cfg, "ScanEasy") + (if hard then LevelNotes(cfg, "ScanHard") else []);
    var level := if hard then LevelOf(cfg, "ScanHard") else LevelOf(cfg, "ScanEasy");
    var sent := LogEvent(track, cfg, Scanned(ship, hard), level, None);
    out := notes + sent;
  }

  /** A scan by security. */
  method ReportSecurity(track: Tracking, cfg: Config, ship: string) returns (out: seq<Emission>)
    modifies track, track.session
    ensures Step(track.Abs(), out) == SecurityScan(old(track.Abs()), cfg, ship)
  {
    track.SetLastSecurity(ship);
    out := LogEventAt(track, cfg, SecurityScanned(ship), "SecurityScan", None);
  }

  /** `ShipTargeted`. */
  method HandleShipTargeted(track: Tracking, cfg: Config, mono: int, e: Event) returns (out: seq<Emission>)
    requires e.ShipTargeted?
    modifies track, track.session
    ensures Result(track.Abs(), out, Handled) == OnShipTargeted(old(track.Abs()), cfg, mono, e)
  {
    out := [];
    if e.ship.Some? {
      var symbol := e.ship.value;
      var ship := ShipLabel(e);
      if ship != track.session.lastsecurity && e.pilotName.Some?
         && Contains(e.pilotName.value, "$ShipName_Police") {
        out := ReportSecurity(track, cfg, ship);
      } else if ship !in track.session.scans && (Listed(symbol, ShipsEasy) || Listed(symbol, ShipsHard)) {
        out := Scan(track, cfg, mono, symbol, ship);
      }
    }
  }

  /** `ReservoirReplenished`. */
  method HandleFuel(track: Tracking, cfg: Config, time: int, fuel: real)
    returns (out: seq<Emission>, outcome: Outcome)
    modifies track, track.session
    ensures Result(track.Abs(), out, outcome) == OnFuel(old(track.Abs()), cfg, time, fuel)
  {
    out, outcome := [], Raised;
    if !FuelProjectionFaults(track.Abs(), time, fuel) {
      track.SetFuel(time, fuel);
      outcome := Handled;
      out := ReportFuel(track, cfg, FuelTierOf(fuel, track.fuelcapacity));
    }
  }

  method ReportFuel(track: Tracking, cfg: Config, tier: FuelTier) returns (out: seq<Emission>)
    modifies track`logged, track`dupeevent, track`duperepeats, track`dupewarn
    ensures Step(track.Abs(), out) == FuelReport(old(track.Abs()), cfg, tier)
  {
    if tier == Critical {
      out := LogEventAt(track, cfg, Fuel(Critical), "FuelCritical", None);
    } else if tier == Low {
      out := LogEventAt(track, cfg, Fuel(Low), "FuelLow", None);
    } else if track.deploytime.Some? {
      out := LogEventAt(track, cfg, Fuel(Routine), "FuelReport", None);
    } else {
      out := LogEvent(track, cfg, Fuel(Routine), 0, None);
    }
  }

  /** `MissionRedirected`. */
  method HandleRedirected(track: Tracking, cfg: Config, name: string) returns (out: seq<Emission>)
    modifies track
    ensures Result(track.Abs(), out, Handled) == OnRedirected(old(track.Abs()), cfg, name)
  {
    out := [];
    if Contains(name, "Mission_Massacre") {
      track.SetRedirects(track.missionredirects + 1);
      var all := |track.missionsactive| == track.missionredirects;
      out := LogEventAt(track, cfg, MissionProgress(track.missionredirects, |track.missionsactive|, all),
                        if all then "MissionsAll" else "Missions", None);
    }
  }

  /** The active list rebuilt in place from a `Missions` snapshot. */
  method LoadMissions(track: Tracking, es: seq<MissionEntry>)
    modifies track`missionsactive
    ensures track.missionsactive == MassacreIds(es)
  {
    track.missionsactive := [];
    var i := 0;
    while i < |es|
      invariant 0 <= i <= |es|
      invariant track.missionsactive == MassacreIds(es[..i])
    {
      assert es[..i + 1][..i] == es[..i];
      if IsActiveMassacre(es[i]) {
        track.missionsactive := track.missionsactive + [es[i].missionId];
      }
      i := i + 1;
    }
    assert es[..|es|] == es;
  }

  /** The first `Missions` snapshot replaces the active list and resets the redirect counter. */
  method LoadSnapshot(track: Tracking, es: seq<MissionEntry>)
    modifies track
    ensures track.Abs() == Snapshot(old(track.Abs()), es)
  {
    track.SetRedirects(0);
    LoadMissions(track, es);
    track.missions := true;
  }

  /** `Missions`. */
  method HandleMissions(track: Tracking, cfg: Config, active: Option<seq<MissionEntry>>)
    returns (out: seq<Emission>)
    modifies track
    ensures Result(track.Abs(), out, Handled) == OnMissions(old(track.Abs()), cfg, active)
  {
    out := [];
    if active.Some? && !track.missions {
      LoadSnapshot(track, active.value);
      out := LogEventAt(track, cfg, MissionsLoaded(|track.missionsactive|), "Missions", None);
    }
  }

  /** `MissionAccepted`. */
  method HandleAccepted(track: Tracking, cfg: Config, name: string, id: int) returns (out: seq<Emission>)
    modifies track
    ensures Result(track.Abs(), out, Handled) == OnAccepted(old(track.Abs()), cfg, name, id)
  {
    out := [];
    if Contains(name, "Mission_Massacre") && track.missions {
      track.missionsactive := track.missionsactive + [id];
      out := LogEventAt(track, cfg, MissionTaken(|track.missionsactive|), "Missions", None);
    }
  }

  /** `MissionAbandoned`, `MissionCompleted` and `MissionFailed`. */
  method HandleEnded(track: Tracking, cfg: Config, id: int) returns (out: seq<Emission>)
    modifies track
    ensures Result(track.Abs(), out, Handled) == OnEnded(old(track.Abs()), cfg, id)
  {
    out := [];
    if track.missions && id in track.missionsactive {
      track.EndMission(id);
      out := LogEventAt(track, cfg, MissionClosed(|track.missionsactive|), "Missions", None);
    }
  }

  /** `HullDamage`. */
  method HandleHull(track: Tracking, cfg: Config, health: real, fighter: bool, playerPilot: bool)
    returns (out: seq<Emission>)
    modifies track
    ensures Result(track.Abs(), out, Handled) == OnHull(old(track.Abs()), cfg, health, fighter, playerPilot)
  {
    out := [];
    if fighter && !playerPilot && track.fighterhull != health {
      track.SetFighterHull(health);
      out := LogEventAt(track, cfg, FighterHull(health), "FighterHull", None);
    } else if playerPilot && !fighter {
      out := LogEventAt(track, cfg, ShipHull(health), "ShipHull", None);
    }
  }

  method ReportBait(track: Tracking, cfg: Config) returns (out: seq<Emission>)
    modifies track, track.session
    ensures Step(track.Abs(), out) == BaitFailure(old(track.Abs()), cfg)
  {
    track.AddBaitFail();
    out := LogEventAt(track, cfg, BaitFailed(track.session.baitfails), "BaitValueLow", Some("BaitValueLow"));
  }

  /** `ReceiveText`. */
  method HandleText(track: Tracking, cfg: Config, channel: string, message: string)
    returns (out: seq<Emission>)
    modifies track, track.session
    ensures Result(track.Abs(), out, Handled) == OnText(old(track.Abs()), cfg, channel, message)
  {
    out := [];
    if channel == "npc" {
      if MentionsAny(message, BaitMessages) {
        out := ReportBait(track, cfg);
      } else if Contains(message, "Police_Attack") {
        out := LogEventAt(track, cfg, SecurityAttack, "SecurityAttack", None);
      }
    }
  }

  /** `LoadGame`. */
  method HandleLoadGame(track: Tracking, cfg: Config, commander: string)
    returns (out: seq<Emission>, outcome: Outcome)
    modifies track
    ensures Result(track.Abs(), out, outcome) == OnLoadGame(old(track.Abs()), cfg, commander)
  {
    var rank := track.cmdrcombatrank;
    out, outcome := [], Raised;
    if rank.Some? && !(-|CombatRanks| <= rank.value < |CombatRanks|) {
    } else if track.cmdrcombatprogress.Some? && rank.None? {
    } else {
      var name := if rank.None? then None
        else Some(CombatRanks[if rank.value < 0 then rank.value + |CombatRanks| else rank.value]);
      out := LogEvent(track, cfg, CmdrLoaded(commander, name), 2, None);
      outcome := Handled;
    }
  }

  /** The gained merits credited to the session and the run. */
  method CreditMerits(track: Tracking, gained: int)
    modifies track, track.session
    ensures track.Abs() == MeritsCredited(old(track.Abs()), gained)
  {
    track.session.AddMerits(gained);
    track.totalmerits := track.totalmerits + gained;
  }

  /** `PowerplayMerits`. */
  method HandleMerits(track: Tracking, cfg: Config, gained: int, power: string) returns (out: seq<Emission>)
    modifies track, track.session
    ensures Result(track.Abs(), out, Handled) == OnMerits(old(track.Abs()), cfg, gained, power)
  {
    out := [];
    if track.session.meritstoreport > 0 && gained < 500 {
      CreditMerits(track, gained);
      out := LogEventAt(track, cfg, MeritsGained(gained, power), "Merits", None);
      track.session.MeritReported();
    }
  }

  /** `Music` with the main-menu track. */
  method ExitToMenu(track: Tracking, cfg: Config) returns (out: seq<Emission>)
    modifies track
    ensures Step(track.Abs(), out) == MenuExit(old(track.Abs()), cfg)
  {
    track.SessionEnd();
    out := LogEvent(track, cfg, MainMenu, 2, None);
  }

  /** `SupercruiseDestinationDrop` at a combat site. */
  method DropIn(track: Tracking, cfg: Config, mono: int, site: string) returns (out: seq<Emission>)
    modifies track, track.session
    ensures Step(track.Abs(), out) == Dropped(old(track.Abs()), cfg, mono, site)
  {
    track.SessionStart(true, mono);
    out := LogEvent(track, cfg, DroppedAt(site), 2, None);
  }

  /** `SupercruiseEntry` and `FSDJump`. */
  method Depart(track: Tracking, cfg: Config, system: string, jump: bool) returns (out: seq<Emission>)
    modifies track
    ensures Step(track.Abs(), out) == Departure(old(track.Abs()), cfg, system, jump)
  {
    out := LogEvent(track, cfg, Departed(system, jump), 2, None);
    track.SessionEnd();
  }

  /** The `match` of `processevent`: the handler of the record's event kind. */
  method HandleEvent(track: Tracking, cfg: Config, e: Event, time: int, mono: int)
    returns (out: seq<Emission>, outcome: Outcome)
    modifies track, track.session
    ensures Result(track.Abs(), out, outcome) == Handle(old(track.Abs()), cfg, e, time, mono)
  {
    out, outcome := [], Handled;
    if e.ShipTargeted? {
      out := HandleShipTargeted(track, cfg, mono, e);
    } else if IsKill(e) {
      out, outcome := HandleKill(track, cfg, time, mono, e);
    } else if e.MissionRedirected? {
      out := HandleRedirected(track, cfg, e.name);
    } else if e.ReservoirReplenished? {
      out, outcome := HandleFuel(track, cfg, time, e.fuelMain);
    } else if e.HullDamage? {
      out := HandleHull(track, cfg, e.health, e.fighter, e.playerPilot);
    } else if e.ReceiveText? {
      out := HandleText(track, cfg, e.channel, e.message);
    } else if e.PowerplayMerits? {
      out := HandleMerits(track, cfg, e.meritsGained, e.power);
    } else if IsNotice(e) {
      out := HandleNotice(track, cfg, e);
    } else {
      out, outcome := HandleSessionEvent(track, cfg, e, mono);
    }
  }

  /** The cases that at most notify. */
  method HandleNotice(track: Tracking, cfg: Config, e: Event) returns (out: seq<Emission>)
    requires IsNotice(e)
    modifies track`logged, track`dupeevent, track`duperepeats, track`dupewarn
    ensures Step(track.Abs(), out) == Notice(old(track.Abs()), cfg, e)
  {
    out := [];
    if e.FighterDestroyed? {
      if track.lasteventname != Some("StartJump") {
        out := LogEventAt(track, cfg, FighterLost, "FighterDown", None);
      }
    } else if e.LaunchFighter? {
      if !e.playerControlled {
        out := LogEvent(track, cfg, FighterLaunched, 2, None);
      }
    } else if e.ShieldState? {
      out := LogEventAt(track, cfg, Shields(e.shieldsUp), "ShipShields", None);
    } else if e.Died? {
      out := LogEventAt(track, cfg, ShipDestroyed, "Died", None);
    } else if !e.abandoned && e.count == 1 {
      out := LogEventAt(track, cfg, CargoStolen(CargoName(e)), "CargoLost", Some("CargoLost"));
    }
  }

  /** The session, commander, mission and travel cases of the `match`. */
  method HandleSessionEvent(track: Tracking, cfg: Config, e: Event, mono: int)
    returns (out: seq<Emission>, outcome: Outcome)
    modifies track, track.session
    ensures Result(track.Abs(), out, outcome) == Events.HandleSessionEvent(old(track.Abs()), cfg, e, mono)
  {
    out, outcome := [], Handled;
    if e.Music? {
      if e.musicTrack == "MainMenu" {
        out := ExitToMenu(track, cfg);
      }
    } else if e.LoadGame? {
      out, outcome := HandleLoadGame(track, cfg, e.commander);
    } else if e.Loadout? {
      track.SetFuelCapacity(e.fuelCapacityMain);
    } else if e.SupercruiseDestinationDrop? {
      if Contains(e.dropType, "$MULTIPLAYER") || Contains(e.dropType, "$Warzone") {
        out := DropIn(track, cfg, mono, e.dropTypeLocalised);
      }
    } else if e.Rank? {
      track.SetCombatRank(e.combat);
    } else if e.Progress? {
      track.SetCombatProgress(e.combat);
    } else if e.Missions? {
      out := HandleMissions(track, cfg, e.active);
    } else if e.MissionAccepted? {
      out := HandleAccepted(track, cfg, e.name, e.missionId);
    } else if e.MissionEnded? {
      out := HandleEnded(track, cfg, e.missionId);
    } else if e.Location? {
      if e.bodyType == "PlanetaryRing" {
        track.SessionStart(false, mono);
      }
    } else if e.Shutdown? {
      out := LogEvent(track, cfg, QuitToDesktop, 2, None);
      outcome := Exited;
    } else if e.SupercruiseEntry? || e.FSDJump? {
      out := Depart(track, cfg, e.starSystem, e.FSDJump?);
    }
  }

  /**
   * `processevent` for one parsed record: the record's time becomes the current
   * event time, the handler runs, and a handler that completed records the
   * event's name; one that raised is reported instead.
   */
  method ProcessEvent(track: Tracking, cfg: Config, rec: Record, mono: int)
    returns (out: seq<Emission>, outcome: Outcome)
    modifies track, track.session
    ensures Result(track.Abs(), out, outcome) == Process(old(track.Abs()), cfg, rec, mono)
  {
    track.thiseventtime := Some(rec.timestamp);
    out, outcome := HandleEvent(track, cfg, rec.event, rec.timestamp, mono);
    if outcome == Handled {
      track.lasteventname := Some(EventName(rec.event));
    } else if outcome == Raised {
      out := out + [EventError(EventName(rec.event))];
    }
  }
}
