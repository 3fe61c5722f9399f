/**
 * `processevent`: one handler per recognised journal event, each a function
 * from the tracking state before the record to the state after it, the
 * notifications it produced and whether it completed.
 */
module Events {
  import opened Wrappers
  import opened Text
  import opened Format
  import opened Journal
  import opened State

  /** How a handler ended: normally, by raising (the record is skipped), or by quitting. */
  datatype Outcome = Handled | Raised | Exited

  datatype Result = Result(t: TrackState, out: seq<Emission>, outcome: Outcome)

  function Done(g: Step): Result { Result(g.t, g.out, Handled) }

  function Unchanged(t: TrackState): Result { Result(t, [], Handled) }

  /** Capacity of the recent inter-kill interval list. */
  const KillsRecent := 10

  /** Appends an interval, first evicting the oldest when the list is full. */
  function PushRecent(r: seq<int>, x: int): (res: seq<int>)
    ensures |r| <= KillsRecent ==> |res| <= KillsRecent
    ensures |res| > 0 && res[|res| - 1] == x
    ensures |r| < KillsRecent ==> res == r + [x]
    ensures |r| == KillsRecent ==> |res| == KillsRecent && res == (r + [x])[1..]
  {
    if |r| == KillsRecent then r[1..] + [x] else r + [x]
  }

  function Sum(s: seq<int>): int {
    if s == [] then 0 else Sum(s[..|s| - 1]) + s[|s| - 1]
  }

  /** The rollup would divide by zero: no time between kills, no reward, or no recent time. */
  predicate RollupFaults(cfg: Config, s: SessionState) {
    s.killstime == 0 || s.bounties == 0
    || (cfg.extendedStats && s.kills > KillsRecent && Sum(s.killsrecent) == 0)
  }

  /** The event bookkeeping fields are left to `Process`. */
  predicate Keeps(a: TrackState, b: TrackState) {
    b.lasteventname == a.lasteventname && b.thiseventtime == a.thiseventtime
  }

  /** Nothing but the gate's own fields differ between `a` and `b`. */
  predicate GateOnly(a: TrackState, b: TrackState) {
    b == a.(log := b.log)
  }

  /**
   * The kill-rate summary sent on every tenth kill of a session: kills,
   * rewards and, when any were earned, merits.
   */
  function Rollup(t: TrackState, cfg: Config): (r: Result)
    ensures GateOnly(t, r.t)
    ensures r.outcome != Exited
    ensures r.outcome == Raised <==> t.session.kills % 10 == 0 && RollupFaults(cfg, t.session)
    ensures t.session.kills % 10 != 0 ==> r == Unchanged(t)
  {
    var s := t.session;
    if s.kills % 10 != 0 then Unchanged(t)
    else if RollupFaults(cfg, s) then Result(t, [], Raised)
    else
      var g1 := GateAt(t, cfg, SessionKills(s.kills), "SummaryKills", None);
      var g2 := GateAt(g1.t, cfg, SessionBounties(s.bounties), "SummaryBounties", None);
      if s.merits > 0 then
        var g3 := GateAt(g2.t, cfg, SessionMerits(s.merits), "SummaryMerits", None);
        Result(g3.t, g1.out + g2.out + g3.out, Handled)
      else Result(g2.t, g1.out + g2.out, Handled)
  }

  predicate IsKill(e: Event) { e.Bounty? || e.FactionKillBond? }

  /** The session after a kill at `time`, before its reward is credited. */
  function KillCounted(s: SessionState, time: int): SessionState {
    var s1 := s.(scans := [], kills := s.kills + 1, meritstoreport := s.meritstoreport + 1);
    var s2 := if s.lastkill.Some? then
        var gap := time - s.lastkill.value;
        s1.(killstime := s.killstime + gap, killsrecent := PushRecent(s.killsrecent, gap))
      else s1;
    s2.(lastkill := Some(time))
  }

  function Gap(s: SessionState, time: int): int {
    if s.lastkill.Some? then time - s.lastkill.value else 0
  }

  function KillReward(e: Event): int
    requires IsKill(e) && (e.Bounty? ==> e.rewards != [])
  {
    if e.Bounty? then e.rewards[0] else e.reward
  }

  predicate KillIsHard(e: Event) {
    e.Bounty? && !Listed(e.target, ShipsEasy) && Listed(e.target, ShipsHard)
  }

  function KillTopic(cfg: Config, s: SessionState, e: Event, time: int): Topic
    requires IsKill(e)
  {
    var ship := if e.FactionKillBond? then "Bond"
      else if e.targetLocalised.Some? then e.targetLocalised.value else Title(e.target);
    var interval := if s.lastkill.Some? then Some(TimeFormat(time - s.lastkill.value)) else None;
    var faction := if e.victimFactionLocalised.Some? then e.victimFactionLocalised.value else e.victimFaction;
    Kill(ship, KillIsHard(e), s.kills + 1, interval,
         if cfg.bountyFaction then Some(TruncateFaction(faction)) else None)
  }

  /** The run totals and the session counters after a kill, before its reward is credited. */
  function CountKill(t: TrackState, time: int, mono: int): TrackState {
    t.(session := KillCounted(t.session, time), totalkills := t.totalkills + 1,
       totaltime := t.totaltime + Gap(t.session, time), lastcheck := Some(mono))
  }

  /** The kill's reward credited to the session and the run; a bond renames the reward kind. */
  function Credit(t: TrackState, e: Event): TrackState
    requires IsKill(e) && (e.Bounty? ==> e.rewards != [])
  {
    var value := KillReward(e);
    t.(killtype := if e.Bounty? then t.killtype else "bonds",
       session := t.session.(bounties := t.session.bounties + value),
       totalbounties := t.totalbounties + value)
  }

  /** The fallback warnings of the level lookups a kill makes. */
  function KillNotes(cfg: Config, e: Event): seq<Emission> {
    LevelNotes(cfg, "KillEasy") + (if KillIsHard(e) then LevelNotes(cfg, "KillHard") else [])
  }

  function KillLevel(cfg: Config, e: Event): int {
    if KillIsHard(e) then LevelOf(cfg, "KillHard") else LevelOf(cfg, "KillEasy")
  }

  /**
   * The credited kill: the reward, the kill notice (`s` is the session as it
   * was before the kill was counted) and the rollup.
   */
  function Payout(t: TrackState, cfg: Config, s: SessionState, e: Event, time: int): Result
    requires IsKill(e) && (e.Bounty? ==> e.rewards != [])
  {
    var g := Gate(Credit(t, e), cfg, KillTopic(cfg, s, e, time), KillLevel(cfg, e), None);
    var roll := Rollup(g.t, cfg);
    Result(roll.t, g.out + roll.out, roll.outcome)
  }

  /**
   * `Bounty` and `FactionKillBond`: a confirmed kill. A bounty without rewards
   * raises after the kill was counted.
   */
  function OnKill(t: TrackState, cfg: Config, time: int, mono: int, e: Event): (r: Result)
    ensures Keeps(t, r.t)
    requires IsKill(e)
  {
    var t1 := SessionStart(t, false, mono);
    var t2 := CountKill(t1, time, mono);
    var notes := KillNotes(cfg, e);
    if e.Bounty? && e.rewards == [] then Result(t2, notes, Raised)
    else
      var p := Payout(t2, cfg, t1.session, e, time);
      Result(p.t, notes + p.out, p.outcome)
  }

  /** `ShipTargeted`: a security scan takes priority over recording a new combat target. */
  function OnShipTargeted(t: TrackState, cfg: Config, mono: int, e: Event): (r: Result)
    ensures Keeps(t, r.t)
    requires e.ShipTargeted?
  {
    if e.ship.None? then Unchanged(t)
    else
      var symbol := e.ship.value;
      var ship := ShipLabel(e);
      var s := t.session;
      if ship != s.lastsecurity && e.pilotName.Some? && Contains(e.pilotName.value, "$ShipName_Police") then
        Done(SecurityScan(t, cfg, ship))
      else if ship !in s.scans && (Listed(symbol, ShipsEasy) || Listed(symbol, ShipsHard)) then
        Done(RecordScan(t, cfg, mono, symbol, ship))
      else Unchanged(t)
  }

  /** The name a targeted ship is reported under. */
  function ShipLabel(e: Event): string
    requires e.ShipTargeted? && e.ship.Some?
  {
    if e.shipLocalised.Some? then e.shipLocalised.value else Title(e.ship.value)
  }

  /** A targeted ship is ignored, reported as security, or recorded as a new combat target. */
  lemma ShipTargetedShape(t: TrackState, cfg: Config, mono: int, e: Event)
    requires e.ShipTargeted?
    ensures var r := OnShipTargeted(t, cfg, mono, e);
      || r == Unchanged(t)
      || (e.ship.Some? && r == Done(SecurityScan(t, cfg, ShipLabel(e))))
      || (e.ship.Some? && r == Done(RecordScan(t, cfg, mono, e.ship.value, ShipLabel(e))))
  {
  }

  /** A security ship other than the last one scanned us. */
  function SecurityScan(t: TrackState, cfg: Config, ship: string): Step {
    GateAt(t.(session := t.session.(lastsecurity := ship)), cfg, SecurityScanned(ship), "SecurityScan", None)
  }

  /** A newly scanned combat target starts the session and joins its scans. */
  function RecordScan(t: TrackState, cfg: Config, mono: int, symbol: string, ship: string): Step {
    var t1 := SessionStart(t, false, mono);
    ScanNotice(t1.(session := t1.session.(scans := t1.session.scans + [ship])), cfg, symbol, ship)
  }

  /**
   * The notice of a new combat target, at the hard-ship level unless it is an
   * easy ship; the easy level is looked up first in either case.
   */
  function ScanNotice(t: TrackState, cfg: Config, symbol: string, ship: string): Step {
    var hard := !Listed(symbol, ShipsEasy);
    var notes := LevelNotes(cfg, "ScanEasy") + (if hard then LevelNotes(cfg, "ScanHard") else []);
    var level := if hard then LevelOf(cfg, "ScanHard") else LevelOf(cfg, "ScanEasy");
    var g := Gate(t, cfg, Scanned(ship, hard), level, None);
    Step(g.t, notes + g.out)
  }

  /** A `Missions` entry that counts as an active massacre mission. */
  predicate IsActiveMassacre(m: MissionEntry) {
    Contains(m.name, "Mission_Massacre") && m.expires > 0
  }

  /** The ids of the active massacre missions of a snapshot, in snapshot order. */
  function MassacreIds(es: seq<MissionEntry>): (ids: seq<int>)
    ensures |ids| <= |es|
    ensures forall x :: x in ids <==>
      exists i :: 0 <= i < |es| && IsActiveMassacre(es[i]) && es[i].missionId == x
    decreases |es|
  {
    if es == [] then []
    else
      var last := es[|es| - 1];
      var front := MassacreIds(es[..|es| - 1]);
      assert forall i :: 0 <= i < |es| - 1 ==> es[..|es| - 1][i] == es[i];
      front + (if IsActiveMassacre(last) then [last.missionId] else [])
  }

  /** Python's `list.remove(x)` for an `x` that may be absent: the first occurrence goes. */
  function RemoveFirst(s: seq<int>, x: int): (r: seq<int>)
    ensures x !in s ==> r == s
    ensures x in s ==> |r| == |s| - 1
    ensures multiset(r) == multiset(s) - multiset{x}
    decreases |s|
  {
    if s == [] then []
    else if s[0] == x then
      assert s == [s[0]] + s[1..];
      s[1..]
    else
      assert s == [s[0]] + s[1..];
      [s[0]] + RemoveFirst(s[1..], x)
  }

  /** The occurrence `RemoveFirst` drops is the first one: the list closes up around it. */
  lemma {:induction false} RemoveFirstAt(s: seq<int>, x: int, i: int)
    requires 0 <= i < |s| && s[i] == x && x !in s[..i]
    ensures RemoveFirst(s, x) == s[..i] + s[i + 1..]
    decreases i
  {
    if i > 0 {
      assert s[0] == s[..i][0];
      assert s[1..][..i - 1] == s[1..i];
      RemoveFirstAt(s[1..], x, i - 1);
      assert s[..i] == [s[0]] + s[1..i];
      assert s[1..][i - 1 + 1..] == s[i + 1..];
    }
  }

  /** The fuel tier of a reading against the tank's capacity. */
  function FuelTierOf(fuel: real, capacity: real): (tier: FuelTier)
    ensures tier == Critical <==> fuel < capacity * 0.1
    ensures tier == Low <==> capacity * 0.1 <= fuel < capacity * 0.2
    ensures tier == Routine <==> !(fuel < capacity * 0.1) && !(fuel < capacity * 0.2)
  {
    if fuel < capacity * 0.1 then Critical else if fuel < capacity * 0.2 then Low else Routine
  }

  /**
   * The burn-rate projection divides by the fuel used since the previous
   * reading; equal readings while deployed make it raise.
   */
  predicate FuelProjectionFaults(t: TrackState, time: int, fuel: real) {
    t.session.fuellasttime.Some? && t.deploytime.Some? && time > t.session.fuellasttime.value
    && t.session.fuellastremain == fuel
  }

  /** `ReservoirReplenished`: store the reading and report by tier. */
  function OnFuel(t: TrackState, cfg: Config, time: int, fuel: real): (r: Result)
    ensures Keeps(t, r.t)
  {
    if FuelProjectionFaults(t, time, fuel) then Result(t, [], Raised)
    else
      var t1 := t.(session := t.session.(fuellasttime := Some(time), fuellastremain := fuel));
      Done(FuelReport(t1, cfg, FuelTierOf(fuel, t.fuelcapacity)))
  }

  /** The fuel notice of a tier; a routine reading outside a session is not shown. */
  function FuelReport(t: TrackState, cfg: Config, tier: FuelTier): Step {
    if tier == Critical then GateAt(t, cfg, Fuel(Critical), "FuelCritical", None)
    else if tier == Low then GateAt(t, cfg, Fuel(Low), "FuelLow", None)
    else if t.deploytime.Some? then GateAt(t, cfg, Fuel(Routine), "FuelReport", None)
    else Gate(t, cfg, Fuel(Routine), 0, None)
  }

  /** `MissionRedirected`: one more massacre mission has its kills. */
  function OnRedirected(t: TrackState, cfg: Config, name: string): (r: Result)
    ensures Keeps(t, r.t)
  {
    if !Contains(name, "Mission_Massacre") then Unchanged(t)
    else
      var n := t.missionredirects + 1;
      var all := |t.missionsactive| == n;
      Done(GateAt(t.(missionredirects := n), cfg, MissionProgress(n, |t.missionsactive|, all),
                  if all then "MissionsAll" else "Missions", None))
  }

  /** `Missions`: the first snapshot replaces the active list and resets the counter. */
  function OnMissions(t: TrackState, cfg: Config, active: Option<seq<MissionEntry>>): (r: Result)
    ensures Keeps(t, r.t)
  {
    if active.None? || t.missions then Unchanged(t)
    else
      var t1 := Snapshot(t, active.value);
      Done(GateAt(t1, cfg, MissionsLoaded(|t1.missionsactive|), "Missions", None))
  }

  /** The active massacre missions of the first snapshot, with no redirects counted yet. */
  function Snapshot(t: TrackState, es: seq<MissionEntry>): TrackState {
    t.(missionsactive := MassacreIds(es), missionredirects := 0, missions := true)
  }

  /** `MissionAccepted`: tracked only once the snapshot has been loaded. */
  function OnAccepted(t: TrackState, cfg: Config, name: string, id: int): (r: Result)
    ensures Keeps(t, r.t)
  {
    if !(Contains(name, "Mission_Massacre") && t.missions) then Unchanged(t)
    else
      var ids := t.missionsactive + [id];
      Done(GateAt(t.(missionsactive := ids), cfg, MissionTaken(|ids|), "Missions", None))
  }

  /** `MissionAbandoned`, `MissionCompleted`, `MissionFailed` of a tracked mission. */
  function OnEnded(t: TrackState, cfg: Config, id: int): (r: Result)
    ensures Keeps(t, r.t)
  {
    if !(t.missions && id in t.missionsactive) then Unchanged(t)
    else
      var ids := RemoveFirst(t.missionsactive, id);
      var n := if t.missionredirects > 0 then t.missionredirects - 1 else t.missionredirects;
      Done(GateAt(t.(missionsactive := ids, missionredirects := n), cfg, MissionClosed(|ids|),
                  "Missions", None))
  }

  /** `HullDamage`: a fighter reading is reported only when it changed. */
  function OnHull(t: TrackState, cfg: Config, health: real, fighter: bool, playerPilot: bool): (r: Result)
    ensures Keeps(t, r.t)
  {
    if fighter && !playerPilot && t.fighterhull != health then
      Done(GateAt(t.(fighterhull := health), cfg, FighterHull(health), "FighterHull", None))
    else if playerPilot && !fighter then
      Done(GateAt(t, cfg, ShipHull(health), "ShipHull", None))
    else Unchanged(t)
  }

  /** Some bait-failure message key occurs in `message`. */
  predicate MentionsAny(message: string, keys: seq<string>) {
    keys != [] && (Contains(message, keys[0]) || MentionsAny(message, keys[1..]))
  }

  /** A pirate declined to engage: one more bait failure, reported under its own dedup key. */
  function BaitFailure(t: TrackState, cfg: Config): Step {
    var s := t.session.(baitfails := t.session.baitfails + 1);
    GateAt(t.(session := s), cfg, BaitFailed(s.baitfails), "BaitValueLow", Some("BaitValueLow"))
  }

  /** `ReceiveText` on the npc channel: bait failures and security attacks. */
  function OnText(t: TrackState, cfg: Config, channel: string, message: string): (r: Result)
    ensures Keeps(t, r.t)
  {
    if channel != "npc" then Unchanged(t)
    else if MentionsAny(message, BaitMessages) then Done(BaitFailure(t, cfg))
    else if Contains(message, "Police_Attack") then
      Done(GateAt(t, cfg, SecurityAttack, "SecurityAttack", None))
    else Unchanged(t)
  }

  /**
   * `LoadGame`: the rank name is looked up by Python indexing, which raises
   * outside -14..13, and a known progress with an unknown rank raises on the
   * comparison `None < 13`.
   */
  function OnLoadGame(t: TrackState, cfg: Config, commander: string): (r: Result)
    ensures Keeps(t, r.t)
  {
    var rank := t.cmdrcombatrank;
    if rank.Some? && !(-|CombatRanks| <= rank.value < |CombatRanks|) then Result(t, [], Raised)
    else if t.cmdrcombatprogress.Some? && rank.None? then Result(t, [], Raised)
    else
      var name := if rank.None? then None
        else Some(CombatRanks[if rank.value < 0 then rank.value + |CombatRanks| else rank.value]);
      Done(Gate(t, cfg, CmdrLoaded(commander, name), 2, None))
  }

  /** `PowerplayMerits`: credited once per kill still to report, below 500 merits. */
  function OnMerits(t: TrackState, cfg: Config, gained: int, power: string): (r: Result)
    ensures Keeps(t, r.t)
  {
    var s := t.session;
    if !(s.meritstoreport > 0 && gained < 500) then Unchanged(t)
    else
      var g := GateAt(MeritsCredited(t, gained), cfg, MeritsGained(gained, power), "Merits", None);
      Done(Step(g.t.(session := g.t.session.(meritstoreport := s.meritstoreport - 1)), g.out))
  }

  function MeritsCredited(t: TrackState, gained: int): TrackState {
    t.(session := t.session.(merits := t.session.merits + gained), totalmerits := t.totalmerits + gained)
  }

  /** `Music` with the main-menu track: the session ends before the notice. */
  function MenuExit(t: TrackState, cfg: Config): Step {
    Gate(SessionEnd(t), cfg, MainMenu, 2, None)
  }

  /** A drop into a combat zone or a multiplayer site forces a new session. */
  function Dropped(t: TrackState, cfg: Config, mono: int, site: string): Step {
    Gate(SessionStart(t, true, mono), cfg, DroppedAt(site), 2, None)
  }

  /** `SupercruiseEntry` and `FSDJump`: the notice, then the session ends. */
  function Departure(t: TrackState, cfg: Config, system: string, jump: bool): Step {
    var g := Gate(t, cfg, Departed(system, jump), 2, None);
    Step(SessionEnd(g.t), g.out)
  }

  /**
   * Dispatch on the event kind; `t` already holds the record's time. Combat,
   * ship and fuel events are handled here, the rest by `HandleSessionEvent`.
   */
  function Handle(t: TrackState, cfg: Config, e: Event, time: int, mono: int): (r: Result)
    ensures Keeps(t, r.t)
  {
    if e.ShipTargeted? then OnShipTargeted(t, cfg, mono, e)
    else if IsKill(e) then OnKill(t, cfg, time, mono, e)
    else if e.MissionRedirected? then OnRedirected(t, cfg, e.name)
    else if e.ReservoirReplenished? then OnFuel(t, cfg, time, e.fuelMain)
    else if e.HullDamage? then OnHull(t, cfg, e.health, e.fighter, e.playerPilot)
    else if e.ReceiveText? then OnText(t, cfg, e.channel, e.message)
    else if e.PowerplayMerits? then OnMerits(t, cfg, e.meritsGained, e.power)
    else if IsNotice(e) then Done(Notice(t, cfg, e))
    else HandleSessionEvent(t, cfg, e, mono)
  }

  /** The events whose handler at most notifies. */
  predicate IsNotice(e: Event) {
    e.FighterDestroyed? || e.LaunchFighter? || e.ShieldState? || e.Died? || e.EjectCargo?
  }

  /**
   * Fighter losses (except during a jump), NPC-crewed fighter launches,
   * shield changes, the ship's destruction and stolen cargo.
   */
  function Notice(t: TrackState, cfg: Config, e: Event): Step
    requires IsNotice(e)
  {
    if e.FighterDestroyed? then
      if t.lasteventname != Some("StartJump") then GateAt(t, cfg, FighterLost, "FighterDown", None)
      else Step(t, [])
    else if e.LaunchFighter? then
      if !e.playerControlled then Gate(t, cfg, FighterLaunched, 2, None) else Step(t, [])
    else if e.ShieldState? then GateAt(t, cfg, Shields(e.shieldsUp), "ShipShields", None)
    else if e.Died? then GateAt(t, cfg, ShipDestroyed, "Died", None)
    else if !e.abandoned && e.count == 1 then
      GateAt(t, cfg, CargoStolen(CargoName(e)), "CargoLost", Some("CargoLost"))
    else Step(t, [])
  }

  function CargoName(e: Event): string
    requires e.EjectCargo?
  {
    if e.cargoLocalised.Some? then e.cargoLocalised.value else Title(e.cargoType)
  }

  /** Session, commander, mission and travel events; the kinds `Handle` takes and `Other` change nothing here. */
  function HandleSessionEvent(t: TrackState, cfg: Config, e: Event, mono: int): (r: Result)
    ensures Keeps(t, r.t)
  {
    if e.Music? then
      if e.musicTrack == "MainMenu" then Done(MenuExit(t, cfg)) else Unchanged(t)
    else if e.LoadGame? then OnLoadGame(t, cfg, e.commander)
    else if e.Loadout? then
      Unchanged(t.(fuelcapacity := if e.fuelCapacityMain >= 2.0 then e.fuelCapacityMain else 64.0))
    else if e.SupercruiseDestinationDrop? then
      if Contains(e.dropType, "$MULTIPLAYER") || Contains(e.dropType, "$Warzone") then
        Done(Dropped(t, cfg, mono, e.dropTypeLocalised))
      else Unchanged(t)
    else if e.Rank? then Unchanged(t.(cmdrcombatrank := Some(e.combat)))
    else if e.Progress? then Unchanged(t.(cmdrcombatprogress := Some(e.combat)))
    else if e.Missions? then OnMissions(t, cfg, e.active)
    else if e.MissionAccepted? then OnAccepted(t, cfg, e.name, e.missionId)
    else if e.MissionEnded? then OnEnded(t, cfg, e.missionId)
    else if e.Location? then
      if e.bodyType == "PlanetaryRing" then Unchanged(SessionStart(t, false, mono)) else Unchanged(t)
    else if e.Shutdown? then
      var g := Gate(t, cfg, QuitToDesktop, 2, None);
      Result(g.t, g.out, Exited)
    else if e.SupercruiseEntry? || e.FSDJump? then Done(Departure(t, cfg, e.starSystem, e.FSDJump?))
    else Unchanged(t)
  }

  /**
   * `processevent` for one parsed record at monotonic time `mono`: the record's
   * time becomes the current event time, the handler runs, and only a handler
   * that completed records the event's name as the last one seen.
   */
  function Process(t: TrackState, cfg: Config, rec: Record, mono: int): (r: Result)
    ensures r.outcome == Handled ==> r.t.lasteventname == Some(EventName(rec.event))
    ensures r.outcome != Handled ==> r.t.lasteventname == t.lasteventname
    ensures r.t.thiseventtime == Some(rec.timestamp)
    ensures r.outcome == Raised ==> |r.out| > 0 && r.out[|r.out| - 1] == EventError(EventName(rec.event))
  {
    var t0 := t.(thiseventtime := Some(rec.timestamp));
    var h := Handle(t0, cfg, rec.event, rec.timestamp, mono);
    match h.outcome
    case Handled => h.(t := h.t.(lasteventname := Some(EventName(rec.event))))
    case Raised => h.(out := h.out + [EventError(EventName(rec.event))])
    case Exited => h
  }
}
