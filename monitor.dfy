/**
 * The monitor's mutable state: `Instance` holds the session counters and
 * `Tracking` the run-wide record and the session it owns. Each method is
 * proved against the value-level function of the same operation in `State`.
 */
module Monitor {
  import opened Wrappers
  import opened State
  import Journal
  import Events

  class Instance {
    var scans: seq<string>
    var lastkill: Option<int>
    var killstime: int
    var killsrecent: seq<int>
    var kills: int
    var bounties: int
    var merits: int
    var lastsecurity: string
    var baitfails: int
    var fuellasttime: Option<int>
    var fuellastremain: real
    var meritstoreport: int

    function Abs(): SessionState
      reads this
    {
      SessionState(scans, lastkill, killstime, killsrecent, kills, bounties, merits,
                   lastsecurity, baitfails, fuellasttime, fuellastremain, meritstoreport)
    }

    constructor ()
      ensures Abs() == FreshSession
    {
      scans, lastkill, killstime, killsrecent := [], None, 0, [];
      kills, bounties, merits, lastsecurity := 0, 0, 0, "";
      baitfails, fuellasttime, fuellastremain, meritstoreport := 0, None, 0.0, 0;
    }

    /** `Instance.reset()`. */
    method Reset()
      modifies this
      ensures Abs() == FreshSession
    {
      ResetKills();
      ResetRewards();
      ResetOthers();
    }

    method ResetKills()
      modifies this`scans, this`lastkill, this`killstime, this`killsrecent
      ensures scans == [] && lastkill.None? && killstime == 0 && killsrecent == []
    {
      scans, lastkill, killstime, killsrecent := [], None, 0, [];
    }

    method ResetRewards()
      modifies this`kills, this`bounties, this`merits, this`meritstoreport
      ensures kills == 0 && bounties == 0 && merits == 0 && meritstoreport == 0
    {
      kills, bounties, merits, meritstoreport := 0, 0, 0, 0;
    }

    method ResetOthers()
      modifies this`lastsecurity, this`baitfails, this`fuellasttime, this`fuellastremain
      ensures lastsecurity == "" && baitfails == 0 && fuellasttime.None? && fuellastremain == 0.0
    {
      lastsecurity, baitfails, fuellasttime, fuellastremain := "", 0, None, 0.0;
    }

    /** Appends an inter-kill interval, popping the oldest first when the list is full. */
    method RecordInterval(gap: int)
      modifies this
      ensures Abs() == old(Abs()).(killsrecent := Events.PushRecent(old(killsrecent), gap))
    {
      if |killsrecent| == Events.KillsRecent {
        killsrecent := killsrecent[1..];
      }
      killsrecent := killsrecent + [gap];
    }

    /** A kill clears the scans and counts towards the kills and the merits still to report. */
    method Tally()
      modifies this
      ensures Abs() == old(Abs()).(scans := [], kills := old(kills) + 1,
                                  meritstoreport := old(meritstoreport) + 1)
    {
      scans, kills, meritstoreport := [], kills + 1, meritstoreport + 1;
    }

    /** The time since the previous kill joins the session's kill time and recent intervals. */
    method AddInterval(gap: int)
      modifies this
      ensures Abs() == old(Abs()).(killstime := old(killstime) + gap,
                                  killsrecent := Events.PushRecent(old(killsrecent), gap))
    {
      killstime := killstime + gap;
      RecordInterval(gap);
    }

    /** The kill bookkeeping of `Bounty` and `FactionKillBond` at record time `time`. */
    method CountKill(time: int)
      modifies this
      ensures Abs() == Events.KillCounted(old(Abs()), time)
    {
      Tally();
      if lastkill.Some? {
        AddInterval(time - lastkill.value);
      }
      lastkill := Some(time);
    }

    method AddBounty(value: int)
      modifies this
      ensures Abs() == old(Abs()).(bounties := old(bounties) + value)
    {
      bounties := bounties + value;
    }

    method AddScan(ship: string)
      modifies this
      ensures Abs() == old(Abs()).(scans := old(scans) + [ship])
    {
      scans := scans + [ship];
    }

    method SetLastSecurity(ship: string)
      modifies this
      ensures Abs() == old(Abs()).(lastsecurity := ship)
    {
      lastsecurity := ship;
    }

    method AddBaitFail()
      modifies this
      ensures Abs() == old(Abs()).(baitfails := old(baitfails) + 1)
    {
      baitfails := baitfails + 1;
    }

    /** The latest fuel reading. */
    method SetFuel(time: int, fuel: real)
      modifies this
      ensures Abs() == old(Abs()).(fuellasttime := Some(time), fuellastremain := fuel)
    {
      fuellasttime, fuellastremain := Some(time), fuel;
    }

    method AddMerits(gained: int)
      modifies this
      ensures Abs() == old(Abs()).(merits := old(merits) + gained)
    {
      merits := merits + gained;
    }

    /** One kill's merits have been reported. */
    method MeritReported()
      modifies this
      ensures Abs() == old(Abs()).(meritstoreport := old(meritstoreport) - 1)
    {
      meritstoreport := meritstoreport - 1;
    }
  }

  class Tracking {
    var deploytime: Option<int>
    var warnednokills: Option<int>
    var warnedkillrate: Option<int>
    var fuelcapacity: real
    var totalkills: int
    var totaltime: int
    var totalbounties: int
    var totalmerits: int
    var killtype: string
    var fighterhull: real
    var logged: int
    var missions: bool
    var missionsactive: seq<int>
    var missionredirects: int
    var lasteventname: Option<string>
    var thiseventtime: Option<int>
    var dupeevent: Option<string>
    var duperepeats: int
    var dupewarn: bool
    var preloading: bool
    var cmdrcombatrank: Option<int>
    var cmdrcombatprogress: Option<int>
    var lastcheck: Option<int>
    /** The session counters, a module-level global next to `track` in the monitor. */
    const session: Instance

    function Abs(): TrackState
      reads this, session
    {
      TrackState(deploytime, warnednokills, warnedkillrate, fuelcapacity, totalkills, totaltime,
                 totalbounties, totalmerits, killtype, fighterhull, missions,
                 missionsactive, missionredirects, lasteventname, thiseventtime,
                 preloading, cmdrcombatrank, cmdrcombatprogress, lastcheck, LogAbs(), session.Abs())
    }

    function LogAbs(): LogState
      reads this
    {
      LogState(logged, dupeevent, duperepeats, dupewarn)
    }

    constructor ()
      ensures Abs() == Initial && fresh(session)
    {
      deploytime, warnednokills, warnedkillrate, fuelcapacity := None, None, None, 64.0;
      totalkills, totaltime, totalbounties, totalmerits := 0, 0, 0, 0;
      killtype, fighterhull, logged, missions := "bounties", 0.0, 0, false;
      missionsactive, missionredirects, lasteventname, thiseventtime := [], 0, None, None;
      dupeevent, duperepeats, dupewarn, preloading := Some(""), 1, false, true;
      cmdrcombatrank, cmdrcombatprogress, lastcheck := None, None, None;
      session := new Instance();
    }

    /** `Tracking.sessionstart(reset)` at monotonic time `mono`. */
    method SessionStart(reset: bool, mono: int)
      modifies this, session
      ensures Abs() == State.SessionStart(old(Abs()), reset, mono)
    {
      if deploytime.None? || reset {
        session.Reset();
        Deploy(mono);
      }
    }

    /** The tracking half of a session start: deployed now, warnings cleared, check re-armed. */
    method Deploy(mono: int)
      modifies this
      ensures Abs() == old(Abs()).(deploytime := thiseventtime, warnednokills := None,
                                  warnedkillrate := None, lastcheck := Some(mono))
    {
      ClearWarnings();
      deploytime, lastcheck := thiseventtime, Some(mono);
    }

    method ClearWarnings()
      modifies this
      ensures Abs() == old(Abs()).(warnednokills := None, warnedkillrate := None)
    {
      warnednokills, warnedkillrate := None, None;
    }

    /** The run totals and session counters of a kill at record time `time`, monotonic time `mono`. */
    method CountKill(time: int, mono: int)
      modifies this, session
      ensures Abs() == Events.CountKill(old(Abs()), time, mono)
    {
      var gap := if session.lastkill.Some? then time - session.lastkill.value else 0;
      session.CountKill(time);
      AddTotals(gap, mono);
    }

    method AddTotals(gap: int, mono: int)
      modifies this
      ensures Abs() == old(Abs()).(totalkills := old(totalkills) + 1, totaltime := old(totaltime) + gap,
                                  lastcheck := Some(mono))
    {
      AddTime(gap);
      totalkills, lastcheck := totalkills + 1, Some(mono);
    }

    method AddTime(gap: int)
      modifies this
      ensures Abs() == old(Abs()).(totaltime := old(totaltime) + gap)
    {
      totaltime := totaltime + gap;
    }

    /** A kill's reward credited to the session and the run. */
    method Credit(e: Journal.Event)
      requires Events.IsKill(e) && (e.Bounty? ==> e.rewards != [])
      modifies this, session
      ensures Abs() == Events.Credit(old(Abs()), e)
    {
      var value := Events.KillReward(e);
      session.AddBounty(value);
      AddReward(value, if e.Bounty? then killtype else "bonds");
    }

    method AddReward(value: int, kind: string)
      modifies this
      ensures Abs() == old(Abs()).(totalbounties := old(totalbounties) + value, killtype := kind)
    {
      totalbounties, killtype := totalbounties + value, kind;
    }

    /** One more bait failure in the session. */
    method AddBaitFail()
      modifies session
      ensures Abs() == old(Abs()).(session := old(Abs()).session.(baitfails := old(session.baitfails) + 1))
    {
      session.AddBaitFail();
    }

    /** The last security ship that scanned us. */
    method SetLastSecurity(ship: string)
      modifies session
      ensures Abs() == old(Abs()).(session := old(Abs()).session.(lastsecurity := ship))
    {
      session.SetLastSecurity(ship);
    }

    method AddScan(ship: string)
      modifies session
      ensures Abs() == old(Abs()).(session := old(Abs()).session.(scans := old(session.scans) + [ship]))
    {
      session.AddScan(ship);
    }

    method SetFuel(time: int, fuel: real)
      modifies session
      ensures Abs() == old(Abs()).(session := old(Abs()).session.(fuellasttime := Some(time),
                                                                 fuellastremain := fuel))
    {
      session.SetFuel(time, fuel);
    }

    /** `Loadout`: the main tank's capacity, or 64 for an implausible reading. */
    method SetFuelCapacity(main: real)
      modifies this
      ensures Abs() == old(Abs()).(fuelcapacity := if main >= 2.0 then main else 64.0)
    {
      fuelcapacity := if main >= 2.0 then main else 64.0;
    }

    method SetCombatRank(rank: int)
      modifies this
      ensures Abs() == old(Abs()).(cmdrcombatrank := Some(rank))
    {
      cmdrcombatrank := Some(rank);
    }

    method SetCombatProgress(progress: int)
      modifies this
      ensures Abs() == old(Abs()).(cmdrcombatprogress := Some(progress))
    {
      cmdrcombatprogress := Some(progress);
    }

    method SetRedirects(n: int)
      modifies this
      ensures Abs() == old(Abs()).(missionredirects := n)
    {
      missionredirects := n;
    }

    method SetFighterHull(health: real)
      modifies this
      ensures Abs() == old(Abs()).(fighterhull := health)
    {
      fighterhull := health;
    }

    /** A tracked mission ends: its id leaves the active list and one redirect is uncounted. */
    method EndMission(id: int)
      modifies this
      ensures Abs() == old(Abs()).(missionsactive := Events.RemoveFirst(old(missionsactive), id),
                                  missionredirects := if old(missionredirects) > 0 then old(missionredirects) - 1
                                                      else old(missionredirects))
    {
      SetMissionsActive(Events.RemoveFirst(missionsactive, id));
      if missionredirects > 0 {
        SetRedirects(missionredirects - 1);
      }
    }

    method SetMissionsActive(ids: seq<int>)
      modifies this
      ensures Abs() == old(Abs()).(missionsactive := ids)
    {
      missionsactive := ids;
    }

    method SetLastCheck(now: int)
      modifies this
      ensures Abs() == old(Abs()).(lastcheck := Some(now))
    {
      lastcheck := Some(now);
    }

    method SetWarnedKillRate(w: Option<int>)
      modifies this
      ensures Abs() == old(Abs()).(warnedkillrate := w)
    {
      warnedkillrate := w;
    }

    method SetWarnedNoKills(w: Option<int>)
      modifies this
      ensures Abs() == old(Abs()).(warnednokills := w)
    {
      warnednokills := w;
    }

    /** The preload is over: notifications are no longer clamped to the terminal. */
    method StopPreloading()
      modifies this
      ensures Abs() == old(Abs()).(preloading := false)
    {
      preloading := false;
    }

    /** `session.reset()` on its own, outside a session start. */
    method ResetSession()
      modifies session
      ensures Abs() == old(Abs()).(session := FreshSession)
    {
      session.Reset();
    }

    /** `Tracking.sessionend()`. */
    method SessionEnd()
      modifies this
      ensures Abs() == State.SessionEnd(old(Abs()))
    {
      if deploytime.Some? {
        deploytime := None;
      }
    }
  }

  /** The dedup streak of one remote-eligible notification. */
  method Dedup(track: Tracking, topic: Topic, lvl: int, key: Option<string>) returns (out: seq<Emission>)
    modifies track`dupeevent, track`duperepeats, track`dupewarn
    ensures Sent(track.LogAbs(), out) == State.Dedup(old(track.LogAbs()), topic, lvl, key)
  {
    if key.Some? && track.dupeevent == key {
      track.duperepeats := track.duperepeats + 1;
    } else {
      track.duperepeats := 1;
      track.dupewarn := false;
    }
    track.dupeevent := key;
    var ping := lvl > 2 && track.duperepeats == 1;
    out := [];
    if track.duperepeats <= DupeMax {
      out := [Remote(topic, ping)];
    } else if !track.dupewarn {
      out := [SuppressNotice];
      track.dupewarn := true;
    }
  }

  /** `logevent` at effective level `lvl`: returns what it prints and sends instead of doing so. */
  method Log(track: Tracking, cfg: Config, topic: Topic, lvl: int, key: Option<string>)
    returns (out: seq<Emission>)
    modifies track`logged, track`dupeevent, track`duperepeats, track`dupewarn
    ensures Sent(track.LogAbs(), out) == State.Log(old(track.LogAbs()), cfg, topic, lvl, key)
  {
    out := if lvl > 0 && !cfg.test then [Local(topic)] else [];
    track.logged := track.logged + 1;
    if cfg.discordEnabled && lvl > 1 {
      var sent := Dedup(track, topic, lvl, key);
      out := out + sent;
    }
  }

  /** `logevent`, with the preload clamp applied to the requested level. */
  method LogEvent(track: Tracking, cfg: Config, topic: Topic, level: int, key: Option<string>)
    returns (out: seq<Emission>)
    modifies track`logged, track`dupeevent, track`duperepeats, track`dupewarn
    ensures Step(track.Abs(), out) == Gate(old(track.Abs()), cfg, topic, level, key)
  {
    out := Log(track, cfg, topic, EffectiveLevel(track.Abs(), cfg, level), key);
  }

  /** `logevent(..., loglevel=getloglevel(key))`: the fallback warning comes first. */
  method LogEventAt(track: Tracking, cfg: Config, topic: Topic, key: string, dedup: Option<string>)
    returns (out: seq<Emission>)
    modifies track`logged, track`dupeevent, track`duperepeats, track`dupewarn
    ensures Step(track.Abs(), out) == GateAt(old(track.Abs()), cfg, topic, key, dedup)
  {
    var notes := LevelNotes(cfg, key);
    var sent := LogEvent(track, cfg, topic, LevelOf(cfg, key), dedup);
    out := notes + sent;
  }
}
