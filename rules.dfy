/**
 * What each notifying handler of `processevent` does to the tracking state
 * and which notice it raises, case by case: the fields it writes, the topic
 * of everything it prints or sends, and the log category that decides
 * whether the notice is printed.
 */
module Rules {
  import opened Wrappers
  import opened Text
  import opened Journal
  import opened State
  import opened Events
  import opened Health

  /**
   * One `logevent` call about `topic` at requested level `level` took `a` to
   * `b`: it was counted, it printed the topic exactly when the effective
   * level is positive outside test mode, everything it printed or sent is
   * about `topic`, and it reached the webhook only with one configured and an
   * effective level above 1.
   */
  predicate Reported(a: TrackState, cfg: Config, b: TrackState, out: seq<Emission>, topic: Topic, level: int) {
    var lvl := EffectiveLevel(a, cfg, level);
    && b.log.logged == a.log.logged + 1
    && (Local(topic) in out <==> lvl > 0 && !cfg.test)
    && (forall e :: e in out && (e.Local? || e.Remote?) ==> e.topic == topic)
    && (forall e :: e in out && IsRemote(e) ==> cfg.discordEnabled && lvl > 1)
  }

  lemma GateReported(t: TrackState, cfg: Config, topic: Topic, level: int, key: Option<string>)
    ensures var g := Gate(t, cfg, topic, level, key);
      GateOnly(t, g.t) && Reported(t, cfg, g.t, g.out, topic, level)
  {
    LogContract(t.log, cfg, topic, EffectiveLevel(t, cfg, level), key);
  }

  lemma GateAtReported(t: TrackState, cfg: Config, topic: Topic, key: string, dedup: Option<string>)
    ensures var g := GateAt(t, cfg, topic, key, dedup);
      GateOnly(t, g.t) && Reported(t, cfg, g.t, g.out, topic, LevelOf(cfg, key))
  {
    GateReported(t, cfg, topic, LevelOf(cfg, key), dedup);
  }

  /**
   * `ReservoirReplenished`: a reading that would make the burn-rate projection
   * divide by zero raises with nothing changed; any other reading is stored
   * and reported by its tier, a routine one outside a session at level 0.
   */
  lemma FuelRule(t: TrackState, cfg: Config, time: int, fuel: real)
    ensures var r := OnFuel(t, cfg, time, fuel);
      var tier := FuelTierOf(fuel, t.fuelcapacity);
      var level := if tier == Critical then LevelOf(cfg, "FuelCritical")
        else if tier == Low then LevelOf(cfg, "FuelLow")
        else if t.deploytime.Some? then LevelOf(cfg, "FuelReport") else 0;
      && (FuelProjectionFaults(t, time, fuel) ==> r == Result(t, [], Raised))
      && (!FuelProjectionFaults(t, time, fuel) ==>
            && r.outcome == Handled
            && r.t == t.(session := t.session.(fuellasttime := Some(time), fuellastremain := fuel),
                         log := r.t.log)
            && Reported(t, cfg, r.t, r.out, Fuel(tier), level)
            && (tier == Routine && t.deploytime.None? ==> r.out == []))
  {
    if !FuelProjectionFaults(t, time, fuel) {
      var t1 := t.(session := t.session.(fuellasttime := Some(time), fuellastremain := fuel));
      FuelReported(t1, cfg, FuelTierOf(fuel, t.fuelcapacity));
    }
  }

  /** The notice FuelRule describes, for the stored reading's tier. */
  lemma FuelReported(t: TrackState, cfg: Config, tier: FuelTier)
    ensures var g := FuelReport(t, cfg, tier);
      var level := if tier == Critical then LevelOf(cfg, "FuelCritical")
        else if tier == Low then LevelOf(cfg, "FuelLow")
        else if t.deploytime.Some? then LevelOf(cfg, "FuelReport") else 0;
      && GateOnly(t, g.t)
      && Reported(t, cfg, g.t, g.out, Fuel(tier), level)
      && (tier == Routine && t.deploytime.None? ==> g.out == [])
  {
    if tier == Critical {
      GateAtReported(t, cfg, Fuel(Critical), "FuelCritical", None);
    } else if tier == Low {
      GateAtReported(t, cfg, Fuel(Low), "FuelLow", None);
    } else if t.deploytime.Some? {
      GateAtReported(t, cfg, Fuel(Routine), "FuelReport", None);
    } else {
      GateReported(t, cfg, Fuel(Routine), 0, None);
    }
  }

  /**
   * `MissionRedirected`: a massacre mission with its kills done bumps the
   * counter and reports the progress; the "all done" tier is chosen exactly
   * when the counter reaches the number of active missions. Other missions
   * are ignored.
   */
  lemma RedirectedRule(t: TrackState, cfg: Config, name: string)
    ensures var r := OnRedirected(t, cfg, name);
      && r.outcome == Handled
      && (!Contains(name, "Mission_Massacre") ==> r == Unchanged(t))
      && (Contains(name, "Mission_Massacre") ==>
            var n := t.missionredirects + 1;
            var all := n == |t.missionsactive|;
            && r.t == t.(missionredirects := n, log := r.t.log)
            && Reported(t, cfg, r.t, r.out, MissionProgress(n, |t.missionsactive|, all),
                        LevelOf(cfg, if all then "MissionsAll" else "Missions")))
  {
    if Contains(name, "Mission_Massacre") {
      RedirectedCounted(t, cfg, name);
    }
  }

  /** The massacre case of RedirectedRule. */
  lemma RedirectedCounted(t: TrackState, cfg: Config, name: string)
    requires Contains(name, "Mission_Massacre")
    ensures var r := OnRedirected(t, cfg, name);
      var n := t.missionredirects + 1;
      var all := n == |t.missionsactive|;
      && r.t == t.(missionredirects := n, log := r.t.log)
      && Reported(t, cfg, r.t, r.out, MissionProgress(n, |t.missionsactive|, all),
                  LevelOf(cfg, if all then "MissionsAll" else "Missions"))
  {
    var n := t.missionredirects + 1;
    var all := n == |t.missionsactive|;
    var key := if all then "MissionsAll" else "Missions";
    GateAtReported(t.(missionredirects := n), cfg, MissionProgress(n, |t.missionsactive|, all), key, None);
  }

  /**
   * `Missions`: only the first snapshot counts; it replaces the active list by
   * the snapshot's active massacre missions and resets the redirect counter.
   */
  lemma MissionsRule(t: TrackState, cfg: Config, active: Option<seq<MissionEntry>>)
    ensures var r := OnMissions(t, cfg, active);
      && r.outcome == Handled
      && r.t.missions == (t.missions || active.Some?)
      && (active.None? || t.missions ==> r == Unchanged(t))
      && (active.Some? && !t.missions ==>
            var ids := MassacreIds(active.value);
            && r.t == t.(missionsactive := ids, missionredirects := 0, missions := true, log := r.t.log)
            && Reported(t, cfg, r.t, r.out, MissionsLoaded(|ids|), LevelOf(cfg, "Missions")))
  {
    if active.Some? && !t.missions {
      var t1 := Snapshot(t, active.value);
      GateAtReported(t1, cfg, MissionsLoaded(|t1.missionsactive|), "Missions", None);
    }
  }

  /** A later snapshot is ignored once one has been loaded. */
  lemma SnapshotOnce(t: TrackState, cfg: Config, first: seq<MissionEntry>, later: Option<seq<MissionEntry>>)
    ensures var t1 := OnMissions(t, cfg, Some(first)).t;
      OnMissions(t1, cfg, later) == Unchanged(t1)
  {
    MissionsRule(t, cfg, Some(first));
  }

  /** `MissionAccepted`: once the snapshot is loaded, a massacre mission joins the active list. */
  lemma AcceptedRule(t: TrackState, cfg: Config, name: string, id: int)
    ensures var r := OnAccepted(t, cfg, name, id);
      && r.outcome == Handled
      && (!(Contains(name, "Mission_Massacre") && t.missions) ==> r == Unchanged(t))
      && (Contains(name, "Mission_Massacre") && t.missions ==>
            && r.t == t.(missionsactive := t.missionsactive + [id], log := r.t.log)
            && Reported(t, cfg, r.t, r.out, MissionTaken(|t.missionsactive| + 1), LevelOf(cfg, "Missions")))
  {
    if Contains(name, "Mission_Massacre") && t.missions {
      var ids := t.missionsactive + [id];
      GateAtReported(t.(missionsactive := ids), cfg, MissionTaken(|ids|), "Missions", None);
    }
  }

  /**
   * `MissionAbandoned`, `MissionCompleted`, `MissionFailed`: a tracked mission
   * leaves the active list once and takes one counted redirect with it, if any.
   */
  lemma EndedRule(t: TrackState, cfg: Config, id: int)
    ensures var r := OnEnded(t, cfg, id);
      && r.outcome == Handled
      && (!(t.missions && id in t.missionsactive) ==> r == Unchanged(t))
      && (t.missions && id in t.missionsactive ==>
            && |r.t.missionsactive| == |t.missionsactive| - 1
            && multiset(r.t.missionsactive) == multiset(t.missionsactive) - multiset{id}
            && r.t.missionredirects == (if t.missionredirects > 0 then t.missionredirects - 1 else t.missionredirects)
            && r.t == t.(missionsactive := r.t.missionsactive, missionredirects := r.t.missionredirects,
                         log := r.t.log)
            && Reported(t, cfg, r.t, r.out, MissionClosed(|t.missionsactive| - 1), LevelOf(cfg, "Missions")))
  {
    if t.missions && id in t.missionsactive {
      var ids := RemoveFirst(t.missionsactive, id);
      var n := if t.missionredirects > 0 then t.missionredirects - 1 else t.missionredirects;
      GateAtReported(t.(missionsactive := ids, missionredirects := n), cfg, MissionClosed(|ids|),
                     "Missions", None);
    }
  }

  /**
   * `HullDamage`: a fighter reading is stored and reported only when it
   * changed and the player is not flying the fighter; a reading of the
   * player's own ship is reported at the ship-hull level; anything else,
   * including an unchanged fighter reading, does nothing.
   */
  lemma HullRule(t: TrackState, cfg: Config, health: real, fighter: bool, playerPilot: bool)
    ensures var r := OnHull(t, cfg, health, fighter, playerPilot);
      && r.outcome == Handled
      && (fighter && !playerPilot && t.fighterhull != health ==>
            && r.t == t.(fighterhull := health, log := r.t.log)
            && Reported(t, cfg, r.t, r.out, FighterHull(health), LevelOf(cfg, "FighterHull")))
      && (playerPilot && !fighter ==>
            GateOnly(t, r.t) && Reported(t, cfg, r.t, r.out, ShipHull(health), LevelOf(cfg, "ShipHull")))
      && (!(fighter && !playerPilot && t.fighterhull != health) && !(playerPilot && !fighter) ==>
            r == Unchanged(t))
  {
    if fighter && !playerPilot && t.fighterhull != health {
      GateAtReported(t.(fighterhull := health), cfg, FighterHull(health), "FighterHull", None);
    } else if playerPilot && !fighter {
      GateAtReported(t, cfg, ShipHull(health), "ShipHull", None);
    }
  }

  /**
   * `ReceiveText` on the npc channel: a bait failure counts one more failure
   * and is reported under its own dedup key; a security attack is reported;
   * every other message, and every other channel, does nothing.
   */
  lemma TextRule(t: TrackState, cfg: Config, channel: string, message: string)
    ensures var r := OnText(t, cfg, channel, message);
      var bait := MentionsAny(message, BaitMessages);
      && r.outcome == Handled
      && (channel != "npc" ==> r == Unchanged(t))
      && (channel == "npc" && bait ==>
            var n := t.session.baitfails + 1;
            && r.t == t.(session := t.session.(baitfails := n), log := r.t.log)
            && Reported(t, cfg, r.t, r.out, BaitFailed(n), LevelOf(cfg, "BaitValueLow"))
            && (cfg.discordEnabled && EffectiveLevel(t, cfg, LevelOf(cfg, "BaitValueLow")) > 1 ==>
                  r.t.log.dupeevent == Some("BaitValueLow")))
      && (channel == "npc" && !bait && Contains(message, "Police_Attack") ==>
            GateOnly(t, r.t) && Reported(t, cfg, r.t, r.out, SecurityAttack, LevelOf(cfg, "SecurityAttack")))
      && (channel == "npc" && !bait && !Contains(message, "Police_Attack") ==> r == Unchanged(t))
  {
    if channel == "npc" {
      if MentionsAny(message, BaitMessages) {
        BaitRule(t, cfg, message);
      } else if Contains(message, "Police_Attack") {
        GateAtReported(t, cfg, SecurityAttack, "SecurityAttack", None);
      }
    }
  }

  /** The bait-failure case of TextRule. */
  lemma BaitRule(t: TrackState, cfg: Config, message: string)
    requires MentionsAny(message, BaitMessages)
    ensures var r := OnText(t, cfg, "npc", message);
      var n := t.session.baitfails + 1;
      && r.t == t.(session := t.session.(baitfails := n), log := r.t.log)
      && Reported(t, cfg, r.t, r.out, BaitFailed(n), LevelOf(cfg, "BaitValueLow"))
      && (cfg.discordEnabled && EffectiveLevel(t, cfg, LevelOf(cfg, "BaitValueLow")) > 1 ==>
            r.t.log.dupeevent == Some("BaitValueLow"))
  {
    var s := t.session.(baitfails := t.session.baitfails + 1);
    var t1 := t.(session := s);
    GateAtReported(t1, cfg, BaitFailed(s.baitfails), "BaitValueLow", Some("BaitValueLow"));
    LogContract(t1.log, cfg, BaitFailed(s.baitfails), EffectiveLevel(t1, cfg, LevelOf(cfg, "BaitValueLow")),
                Some("BaitValueLow"));
  }

  /**
   * `LoadGame`: a rank outside Python's index range raises, and so does a
   * known progress with an unknown rank; otherwise the commander is announced
   * at level 2 with the rank's name, a negative rank counting from the end.
   */
  lemma LoadGameRule(t: TrackState, cfg: Config, commander: string)
    ensures var r := OnLoadGame(t, cfg, commander);
      var rank := t.cmdrcombatrank;
      var bad := (rank.Some? && !(-|CombatRanks| <= rank.value < |CombatRanks|))
        || (rank.None? && t.cmdrcombatprogress.Some?);
      && (bad ==> r == Result(t, [], Raised))
      && (!bad ==>
            var name := if rank.None? then None
              else Some(CombatRanks[if rank.value < 0 then |CombatRanks| + rank.value else rank.value]);
            && r.outcome == Handled
            && GateOnly(t, r.t)
            && Reported(t, cfg, r.t, r.out, CmdrLoaded(commander, name), 2))
  {
    var rank := t.cmdrcombatrank;
    if !((rank.Some? && !(-|CombatRanks| <= rank.value < |CombatRanks|))
         || (rank.None? && t.cmdrcombatprogress.Some?)) {
      var name := if rank.None? then None
        else Some(CombatRanks[if rank.value < 0 then rank.value + |CombatRanks| else rank.value]);
      GateReported(t, cfg, CmdrLoaded(commander, name), 2, None);
    }
  }

  /**
   * `PowerplayMerits`: merits below 500 are credited to the session and the
   * run once per kill still to report; otherwise nothing changes.
   */
  lemma MeritsRule(t: TrackState, cfg: Config, gained: int, power: string)
    ensures var r := OnMerits(t, cfg, gained, power);
      var s := t.session;
      && r.outcome == Handled
      && (s.meritstoreport > 0 && gained < 500 ==>
            && r.t == t.(session := s.(merits := s.merits + gained, meritstoreport := s.meritstoreport - 1),
                         totalmerits := t.totalmerits + gained, log := r.t.log)
            && Reported(t, cfg, r.t, r.out, MeritsGained(gained, power), LevelOf(cfg, "Merits")))
      && (!(s.meritstoreport > 0 && gained < 500) ==> r == Unchanged(t))
  {
    if t.session.meritstoreport > 0 && gained < 500 {
      GateAtReported(MeritsCredited(t, gained), cfg, MeritsGained(gained, power), "Merits", None);
    }
  }

  /** The snapshot keeps its active massacre missions in order: MassacreIds distributes over `+`. */
  lemma {:induction false} MassacreIdsAppend(a: seq<MissionEntry>, b: seq<MissionEntry>)
    ensures MassacreIds(a + b) == MassacreIds(a) + MassacreIds(b)
    decreases |b|
  {
    if b == [] {
      assert a + b == a;
    } else {
      var front := b[..|b| - 1];
      MassacreIdsAppend(a, front);
      assert (a + b)[..|a + b| - 1] == a + front;
      assert (a + b)[|a + b| - 1] == b[|b| - 1];
    }
  }

  /** One snapshot entry contributes its id exactly when it is an active massacre mission. */
  lemma MassacreIdsOne(m: MissionEntry)
    ensures MassacreIds([m]) == if IsActiveMassacre(m) then [m.missionId] else []
  {
    assert [m][..0] == [];
  }

  /**
   * A confirmed kill opens a session if none is open, counts the kill in the
   * session and the run, adds the time since the previous kill, and re-arms
   * the health check. A bounty without rewards raises after the count;
   * otherwise the reward is credited to both and a bond renames the reward
   * kind, and the kill notice is printed when its level allows.
   */
  lemma KillRule(t: TrackState, cfg: Config, time: int, mono: int, e: Event)
    requires IsKill(e)
    ensures var r := OnKill(t, cfg, time, mono, e);
      var t1 := SessionStart(t, false, mono);
      var s := t1.session;
      var empty := e.Bounty? && e.rewards == [];
      && r.t.deploytime == t1.deploytime
      && r.t.lastcheck == Some(mono)
      && r.t.totalkills == t.totalkills + 1
      && r.t.totaltime == t.totaltime + Gap(s, time)
      && r.t.session.kills == s.kills + 1
      && r.t.session.meritstoreport == s.meritstoreport + 1
      && r.t.session.lastkill == Some(time)
      && r.t.session.scans == []
      && (empty ==> r.outcome == Raised && r.t == CountKill(t1, time, mono))
      && (!empty ==>
            && r.t.session.bounties == s.bounties + KillReward(e)
            && r.t.totalbounties == t.totalbounties + KillReward(e)
            && r.t.killtype == (if e.Bounty? then t.killtype else "bonds")
            && (!cfg.test && EffectiveLevel(t, cfg, KillLevel(cfg, e)) > 0 ==>
                  Local(KillTopic(cfg, s, e, time)) in r.out))
  {
    var t1 := SessionStart(t, false, mono);
    var t2 := CountKill(t1, time, mono);
    if !(e.Bounty? && e.rewards == []) {
      PayoutCredits(t2, cfg, t1.session, e, time);
    }
  }

  /** The credited part of KillRule, on the state after the count. */
  lemma PayoutCredits(t: TrackState, cfg: Config, s: SessionState, e: Event, time: int)
    requires IsKill(e) && (e.Bounty? ==> e.rewards != [])
    ensures var r := Payout(t, cfg, s, e, time);
      && r.t == Credit(t, e).(log := r.t.log)
      && (!cfg.test && EffectiveLevel(t, cfg, KillLevel(cfg, e)) > 0 ==> Local(KillTopic(cfg, s, e, time)) in r.out)
  {
    var c := Credit(t, e);
    var topic := KillTopic(cfg, s, e, time);
    GateReported(c, cfg, topic, KillLevel(cfg, e), None);
  }

  /**
   * The rollup on a tenth kill that does not divide by zero: one notice for
   * the kills, one for the rewards and one for the merits when any were
   * earned, each printed when its summary level allows.
   */
  lemma RollupPosts(t: TrackState, cfg: Config)
    requires t.session.kills % 10 == 0 && !RollupFaults(cfg, t.session)
    ensures var r := Rollup(t, cfg);
      var s := t.session;
      && r.outcome == Handled
      && r.t.log.logged == t.log.logged + (if s.merits > 0 then 3 else 2)
      && (Local(SessionKills(s.kills)) in r.out <==>
            !cfg.test && EffectiveLevel(t, cfg, LevelOf(cfg, "SummaryKills")) > 0)
      && (Local(SessionBounties(s.bounties)) in r.out <==>
            !cfg.test && EffectiveLevel(t, cfg, LevelOf(cfg, "SummaryBounties")) > 0)
      && (Local(SessionMerits(s.merits)) in r.out <==>
            s.merits > 0 && !cfg.test && EffectiveLevel(t, cfg, LevelOf(cfg, "SummaryMerits")) > 0)
  {
    var s := t.session;
    var g1 := GateAt(t, cfg, SessionKills(s.kills), "SummaryKills", None);
    GateAtReported(t, cfg, SessionKills(s.kills), "SummaryKills", None);
    var g2 := GateAt(g1.t, cfg, SessionBounties(s.bounties), "SummaryBounties", None);
    GateAtReported(g1.t, cfg, SessionBounties(s.bounties), "SummaryBounties", None);
    if s.merits > 0 {
      GateAtReported(g2.t, cfg, SessionMerits(s.merits), "SummaryMerits", None);
    }
  }

  /**
   * `shutdown()` when it does not raise: the three or four run totals are
   * logged only after more than one kill, the stop notice always.
   */
  lemma ShutdownTotals(t: TrackState, cfg: Config)
    ensures var r := ShutdownSummary(t, cfg);
      r.outcome == Handled ==>
        && r.t.log.logged == t.log.logged + 1
             + (if t.totalkills > 1 then (if t.totalmerits > 0 then 3 else 2) else 0)
        && (Local(TotalKills(t.totalkills)) in r.out <==>
              t.totalkills > 1 && !cfg.test && EffectiveLevel(t, cfg, LevelOf(cfg, "SummaryKills")) > 0)
        && (Local(MonitorStopped) in r.out <==> !cfg.test && EffectiveLevel(t, cfg, 2) > 0)
  {
    if t.totalkills > 1 && !SummaryFaults(t) {
      TotalsLogged(t, cfg);
    } else if t.totalkills <= 1 {
      GateReported(t, cfg, MonitorStopped, 2, None);
    }
  }

  /** The case of ShutdownTotals with more than one kill. */
  lemma TotalsLogged(t: TrackState, cfg: Config)
    requires t.totalkills > 1 && !SummaryFaults(t)
    ensures var r := ShutdownSummary(t, cfg);
      && r.t.log.logged == t.log.logged + 1 + (if t.totalmerits > 0 then 3 else 2)
      && (Local(TotalKills(t.totalkills)) in r.out <==>
            !cfg.test && EffectiveLevel(t, cfg, LevelOf(cfg, "SummaryKills")) > 0)
      && (Local(MonitorStopped) in r.out <==> !cfg.test && EffectiveLevel(t, cfg, 2) > 0)
  {
    var g1 := GateAt(t, cfg, TotalKills(t.totalkills), "SummaryKills", None);
    GateAtReported(t, cfg, TotalKills(t.totalkills), "SummaryKills", None);
    var g2 := GateAt(g1.t, cfg, TotalBounties(t.totalbounties), "SummaryBounties", None);
    GateAtReported(g1.t, cfg, TotalBounties(t.totalbounties), "SummaryBounties", None);
    var g3 := if t.totalmerits > 0 then GateAt(g2.t, cfg, TotalMerits(t.totalmerits), "SummaryMerits", None)
              else Step(g2.t, []);
    if t.totalmerits > 0 {
      GateAtReported(g2.t, cfg, TotalMerits(t.totalmerits), "SummaryMerits", None);
    }
    GateReported(g3.t, cfg, MonitorStopped, 2, None);
  }

  /**
   * A due health check before the session's first kill: once the session is
   * five minutes old it warns of no kills, unless a warning armed earlier has
   * not yet outlived the cooldown; the warning is stamped with the check time.
   */
  lemma NoKillsWarning(t: TrackState, cfg: Config, cooldown: int, mono: int, utc: int)
    requires Due(t, mono) && t.session.kills == 0
    ensures var r := HealthTick(t, cfg, cooldown, mono, utc);
      var now := CheckTime(t, mono);
      var secs := SessionSecs(t, utc);
      var w := if Expired(t.warnednokills, now, cooldown) then None else t.warnednokills;
      var fires := w.None? && secs >= WarnNoKillsGrace * 60;
      && r.cooldown == cooldown
      && (fires ==>
            && r.t == t.(lastcheck := Some(now), warnednokills := Some(now), log := r.t.log)
            && Reported(t, cfg, r.t, r.out, NoKillsYet(TruncDiv(secs, 60)), LevelOf(cfg, "NoKills")))
      && (!fires ==> r == Tick(t.(lastcheck := Some(now), warnednokills := w), cooldown, []))
  {
    var now := CheckTime(t, mono);
    var secs := SessionSecs(t, utc);
    var t1 := t.(lastcheck := Some(now));
    var t2 := if Expired(t1.warnednokills, now, cooldown) then t1.(warnednokills := None) else t1;
    if t2.warnednokills.None? && secs >= WarnNoKillsGrace * 60 {
      GateAtReported(t2, cfg, NoKillsYet(TruncDiv(secs, 60)), "NoKills", None);
    }
  }

  /**
   * A due health check once kills exist: a kill rate below the threshold is
   * warned of after five minutes of session and five minutes after a no-kills
   * warning; otherwise a last kill older than the configured minutes is. Both
   * wait while a kill-rate warning still within the cooldown is armed, and
   * the cooldown doubles each time such a warning expires. `t1` differs from
   * `t` only in the stamps, so its effective levels and log count are `t`'s.
   */
  lemma KillRateWarning(t: TrackState, cfg: Config, cooldown: int, mono: int, utc: int)
    requires Due(t, mono) && t.session.kills != 0
    ensures var r := HealthTick(t, cfg, cooldown, mono, utc);
      var now := CheckTime(t, mono);
      var secs := SessionSecs(t, utc);
      var w := if Expired(t.warnedkillrate, now, cooldown) then None else t.warnedkillrate;
      var t1 := t.(lastcheck := Some(now), warnedkillrate := w);
      && r.cooldown == NextCooldown(t, cooldown, now)
      && secs != 0
      && (RateBelow(t.session.kills, secs, cfg.warnKillRate) ==>
            var fires := w.None? && secs >= WarnNoKillsGrace * 60
              && (t.warnednokills.None? || now - t.warnednokills.value >= WarnNoKillsGrace * 60);
            && (fires ==>
                  r.t == t1.(warnedkillrate := Some(now), log := r.t.log)
                  && Reported(t1, cfg, r.t, r.out, KillRateLow, LevelOf(cfg, "KillRate")))
            && (!fires ==> r.t == t1 && r.out == []))
      && (!RateBelow(t.session.kills, secs, cfg.warnKillRate) && t.session.lastkill.None? ==>
            r.t == t1 && r.out == [TrackingError])
      && (!RateBelow(t.session.kills, secs, cfg.warnKillRate) && t.session.lastkill.Some? ==>
            var minutes := TruncDiv(utc - t.session.lastkill.value, 60);
            var fires := w.None? && minutes >= cfg.warnNoKills;
            && (fires ==>
                  r.t == t1.(warnedkillrate := Some(now), log := r.t.log)
                  && Reported(t1, cfg, r.t, r.out, LastKillAgo(minutes), LevelOf(cfg, "NoKills")))
            && (!fires ==> r.t == t1 && r.out == []))
  {
    var now := CheckTime(t, mono);
    var secs := SessionSecs(t, utc);
    var w := if Expired(t.warnedkillrate, now, cooldown) then None else t.warnedkillrate;
    var t1 := t.(lastcheck := Some(now), warnedkillrate := w);
    KillRateChecked(t1, cfg, now, utc, secs);
  }

  /** KillRateCheck on the state after the stamp and the expiry. */
  lemma KillRateChecked(t: TrackState, cfg: Config, now: int, utc: int, secs: int)
    requires t.session.kills != 0 && secs != 0
    ensures var r := KillRateCheck(t, cfg, now, utc, secs);
      && (RateBelow(t.session.kills, secs, cfg.warnKillRate) ==>
            var fires := t.warnedkillrate.None? && secs >= WarnNoKillsGrace * 60
              && (t.warnednokills.None? || now - t.warnednokills.value >= WarnNoKillsGrace * 60);
            && (fires ==>
                  r.t == t.(warnedkillrate := Some(now), log := r.t.log)
                  && Reported(t, cfg, r.t, r.out, KillRateLow, LevelOf(cfg, "KillRate")))
            && (!fires ==> r == Step(t, [])))
      && (!RateBelow(t.session.kills, secs, cfg.warnKillRate) && t.session.lastkill.None? ==>
            r == Step(t, [TrackingError]))
      && (!RateBelow(t.session.kills, secs, cfg.warnKillRate) && t.session.lastkill.Some? ==>
            var minutes := TruncDiv(utc - t.session.lastkill.value, 60);
            var fires := t.warnedkillrate.None? && minutes >= cfg.warnNoKills;
            && (fires ==>
                  r.t == t.(warnedkillrate := Some(now), log := r.t.log)
                  && Reported(t, cfg, r.t, r.out, LastKillAgo(minutes), LevelOf(cfg, "NoKills")))
            && (!fires ==> r == Step(t, [])))
  {
    if RateBelow(t.session.kills, secs, cfg.warnKillRate) {
      RateLowChecked(t, cfg, now, utc, secs);
    } else if t.session.lastkill.Some? {
      LastKillChecked(t, cfg, now, utc, secs);
    }
  }

  /** The low-rate case of KillRateChecked. */
  lemma RateLowChecked(t: TrackState, cfg: Config, now: int, utc: int, secs: int)
    requires t.session.kills != 0 && secs != 0 && RateBelow(t.session.kills, secs, cfg.warnKillRate)
    ensures var r := KillRateCheck(t, cfg, now, utc, secs);
      var fires := t.warnedkillrate.None? && secs >= WarnNoKillsGrace * 60
        && (t.warnednokills.None? || now - t.warnednokills.value >= WarnNoKillsGrace * 60);
      && (fires ==>
            r.t == t.(warnedkillrate := Some(now), log := r.t.log)
            && Reported(t, cfg, r.t, r.out, KillRateLow, LevelOf(cfg, "KillRate")))
      && (!fires ==> r == Step(t, []))
  {
    GateAtReported(t, cfg, KillRateLow, "KillRate", None);
  }

  /** The last-kill case of KillRateChecked. */
  lemma LastKillChecked(t: TrackState, cfg: Config, now: int, utc: int, secs: int)
    requires t.session.kills != 0 && secs != 0 && !RateBelow(t.session.kills, secs, cfg.warnKillRate)
    requires t.session.lastkill.Some?
    ensures var r := KillRateCheck(t, cfg, now, utc, secs);
      var minutes := TruncDiv(utc - t.session.lastkill.value, 60);
      var fires := t.warnedkillrate.None? && minutes >= cfg.warnNoKills;
      && (fires ==>
            r.t == t.(warnedkillrate := Some(now), log := r.t.log)
            && Reported(t, cfg, r.t, r.out, LastKillAgo(minutes), LevelOf(cfg, "NoKills")))
      && (!fires ==> r == Step(t, []))
  {
    GateAtReported(t, cfg, LastKillAgo(TruncDiv(utc - t.session.lastkill.value, 60)), "NoKills", None);
  }

  /**
   * The session start and end triggers of `processevent`: the main-menu track
   * ends the session before its notice, a drop into a combat zone or a
   * multiplayer site forces a fresh session deployed at the record's time, a
   * planetary ring starts one silently unless one is running, and supercruise
   * entry or an FSD jump ends the session after its notice. Nothing else but
   * the log changes, and each notice is reported at level 2.
   */
  lemma SessionTriggers(t: TrackState, cfg: Config, e: Event, mono: int)
    ensures var r := HandleSessionEvent(t, cfg, e, mono);
      && (e == Music("MainMenu") ==>
            && r.outcome == Handled
            && r.t.deploytime.None? && r.t.session == t.session
            && r.t == SessionEnd(t).(log := r.t.log)
            && Reported(t, cfg, r.t, r.out, MainMenu, 2))
      && (e.SupercruiseDestinationDrop? && (Contains(e.dropType, "$MULTIPLAYER") || Contains(e.dropType, "$Warzone")) ==>
            && r.outcome == Handled
            && r.t.deploytime == t.thiseventtime && r.t.session == FreshSession && r.t.lastcheck == Some(mono)
            && r.t == SessionStart(t, true, mono).(log := r.t.log)
            && Reported(t, cfg, r.t, r.out, DroppedAt(e.dropTypeLocalised), 2))
      && (e == Location("PlanetaryRing") ==> r == Unchanged(SessionStart(t, false, mono)))
      && ((e.SupercruiseEntry? || e.FSDJump?) ==>
            && r.outcome == Handled
            && r.t.deploytime.None? && r.t.session == t.session
            && r.t == SessionEnd(t).(log := r.t.log)
            && Reported(t, cfg, r.t, r.out, Departed(e.starSystem, e.FSDJump?), 2))
  {
    if e == Music("MainMenu") {
      GateReported(SessionEnd(t), cfg, MainMenu, 2, None);
    } else if e.SupercruiseDestinationDrop? {
      GateReported(SessionStart(t, true, mono), cfg, DroppedAt(e.dropTypeLocalised), 2, None);
    } else if e.SupercruiseEntry? || e.FSDJump? {
      GateReported(t, cfg, Departed(e.starSystem, e.FSDJump?), 2, None);
    }
  }

  /** `ShipTargeted` by a police ship other than the last one: it is recorded and reported. */
  lemma SecurityScanRule(t: TrackState, cfg: Config, ship: string)
    ensures var g := SecurityScan(t, cfg, ship);
      && g.t == t.(session := t.session.(lastsecurity := ship), log := g.t.log)
      && Reported(t, cfg, g.t, g.out, SecurityScanned(ship), LevelOf(cfg, "SecurityScan"))
  {
    GateAtReported(t.(session := t.session.(lastsecurity := ship)), cfg, SecurityScanned(ship), "SecurityScan", None);
  }

  /**
   * A new combat target: the session starts if none is running, the ship
   * joins its scans, and it is reported at the hard-ship level unless it is an
   * easy ship.
   */
  lemma RecordScanRule(t: TrackState, cfg: Config, mono: int, symbol: string, ship: string)
    ensures var g := RecordScan(t, cfg, mono, symbol, ship);
      var t1 := SessionStart(t, false, mono);
      var hard := !Listed(symbol, ShipsEasy);
      && g.t == t1.(session := t1.session.(scans := t1.session.scans + [ship]), log := g.t.log)
      && ship in g.t.session.scans
      && Reported(t, cfg, g.t, g.out, Scanned(ship, hard),
                  if hard then LevelOf(cfg, "ScanHard") else LevelOf(cfg, "ScanEasy"))
  {
    var t1 := SessionStart(t, false, mono);
    var t2 := t1.(session := t1.session.(scans := t1.session.scans + [ship]));
    ScanNoticeRule(t2, cfg, symbol, ship);
    assert t2.log == t.log && t2.preloading == t.preloading;
    assert ship in t2.session.scans;
  }

  /** The notice of RecordScanRule, for the state with the ship already recorded. */
  lemma ScanNoticeRule(t: TrackState, cfg: Config, symbol: string, ship: string)
    ensures var g := ScanNotice(t, cfg, symbol, ship);
      var hard := !Listed(symbol, ShipsEasy);
      && GateOnly(t, g.t)
      && Reported(t, cfg, g.t, g.out, Scanned(ship, hard),
                  if hard then LevelOf(cfg, "ScanHard") else LevelOf(cfg, "ScanEasy"))
  {
    var hard := !Listed(symbol, ShipsEasy);
    var level := if hard then LevelOf(cfg, "ScanHard") else LevelOf(cfg, "ScanEasy");
    var notes := LevelNotes(cfg, "ScanEasy") + (if hard then LevelNotes(cfg, "ScanHard") else []);
    var g := Gate(t, cfg, Scanned(ship, hard), level, None);
    GateReported(t, cfg, Scanned(ship, hard), level, None);
    assert forall x :: x in notes ==> x.LevelWarning?;
    WarningsAhead(t, cfg, g, notes, Scanned(ship, hard), level);
  }

  /** Fallback warnings printed before a notice change nothing `Reported` says. */
  lemma WarningsAhead(t: TrackState, cfg: Config, g: Step, notes: seq<Emission>, topic: Topic, level: int)
    requires Reported(t, cfg, g.t, g.out, topic, level)
    requires forall x :: x in notes ==> x.LevelWarning?
    ensures Reported(t, cfg, g.t, notes + g.out, topic, level)
  {
  }

  /**
   * `ShipTargeted`, case by case: without a ship nothing happens; a police
   * ship other than the last security scan is a security scan, checked first;
   * otherwise an easy or hard ship not yet scanned is a new combat target; any
   * other target, a repeat of the last security ship included, changes nothing.
   */
  lemma ShipTargetedRule(t: TrackState, cfg: Config, mono: int, e: Event)
    requires e.ShipTargeted?
    ensures var r := OnShipTargeted(t, cfg, mono, e);
      && r.outcome == Handled
      && (e.ship.None? ==> r == Unchanged(t))
      && (e.ship.Some? ==>
            var ship := ShipLabel(e);
            var security := ship != t.session.lastsecurity && e.pilotName.Some?
              && Contains(e.pilotName.value, "$ShipName_Police");
            var combat := ship !in t.session.scans
              && (Listed(e.ship.value, ShipsEasy) || Listed(e.ship.value, ShipsHard));
            && (security ==> r == Done(SecurityScan(t, cfg, ship)))
            && (!security && combat ==> r == Done(RecordScan(t, cfg, mono, e.ship.value, ship)))
            && (!security && !combat ==> r == Unchanged(t)))
  {
  }

  /**
   * The notice-only events: a lost fighter is reported unless the previous
   * record was `StartJump`; a fighter launch at level 2 only for an NPC pilot;
   * shields and the ship's destruction at their categories; cargo only when
   * exactly one item was taken rather than abandoned, under the `CargoLost`
   * dedup key. Each changes nothing but the log.
   */
  lemma NoticeRule(t: TrackState, cfg: Config, e: Event)
    requires IsNotice(e)
    ensures var g := Notice(t, cfg, e);
      && GateOnly(t, g.t)
      && (e.FighterDestroyed? ==>
            if t.lasteventname == Some("StartJump") then g == Step(t, [])
            else Reported(t, cfg, g.t, g.out, FighterLost, LevelOf(cfg, "FighterDown")))
      && (e.LaunchFighter? ==>
            if e.playerControlled then g == Step(t, [])
            else Reported(t, cfg, g.t, g.out, FighterLaunched, 2))
      && (e.ShieldState? ==> Reported(t, cfg, g.t, g.out, Shields(e.shieldsUp), LevelOf(cfg, "ShipShields")))
      && (e.Died? ==> Reported(t, cfg, g.t, g.out, ShipDestroyed, LevelOf(cfg, "Died")))
      && (e.EjectCargo? ==>
            if e.abandoned || e.count != 1 then g == Step(t, [])
            else CargoReported(t, cfg, g, CargoName(e)))
  {
    if e.FighterDestroyed? {
      GateAtReported(t, cfg, FighterLost, "FighterDown", None);
    } else if e.LaunchFighter? {
      GateReported(t, cfg, FighterLaunched, 2, None);
    } else if e.ShieldState? {
      GateAtReported(t, cfg, Shields(e.shieldsUp), "ShipShields", None);
    } else if e.Died? {
      GateAtReported(t, cfg, ShipDestroyed, "Died", None);
    } else if !e.abandoned && e.count == 1 {
      CargoRule(t, cfg, CargoName(e));
    }
  }

  /** The stolen-cargo notice: reported at `CargoLost`, which is also its dedup key when sent. */
  predicate CargoReported(t: TrackState, cfg: Config, g: Step, cargo: string) {
    && Reported(t, cfg, g.t, g.out, CargoStolen(cargo), LevelOf(cfg, "CargoLost"))
    && (cfg.discordEnabled && EffectiveLevel(t, cfg, LevelOf(cfg, "CargoLost")) > 1 ==>
          g.t.log.dupeevent == Some("CargoLost"))
  }

  lemma CargoRule(t: TrackState, cfg: Config, cargo: string)
    ensures var g := GateAt(t, cfg, CargoStolen(cargo), "CargoLost", Some("CargoLost"));
      GateOnly(t, g.t) && CargoReported(t, cfg, g, cargo)
  {
    GateAtReported(t, cfg, CargoStolen(cargo), "CargoLost", Some("CargoLost"));
    LogContract(t.log, cfg, CargoStolen(cargo), EffectiveLevel(t, cfg, LevelOf(cfg, "CargoLost")), Some("CargoLost"));
  }
}
