/**
 * The monitor's state as values: the per-session counters (`Instance`), the
 * run-wide tracking record (`Tracking`), the deployment transitions and the
 * notification gate `logevent`.
 */
module State {
  import opened Wrappers
  import opened Levels

  /** The settings that steer the processor's decisions. */
  datatype Config = Config(
    test: bool,                  // remote messages are echoed to the terminal instead
    discordEnabled: bool,        // a valid webhook is configured
    levels: map<string, Setting>,
    extendedStats: bool,
    bountyFaction: bool,
    warnKillRate: int,           // kills per hour below which the rate is reported
    warnNoKills: int)            // minutes since the last kill before it is reported

  datatype FuelTier = Critical | Low | Routine

  /** What a notification is about; the rendered text and colours are not modelled. */
  datatype Topic =
    | SecurityScanned(ship: string)
    | Scanned(ship: string, hard: bool)
    | Kill(ship: string, hard: bool, count: int, interval: Option<string>, faction: Option<string>)
    | SessionKills(kills: int)
    | SessionBounties(bounties: int)
    | SessionMerits(merits: int)
    | MissionProgress(redirected: int, active: int, all: bool)
    | Fuel(tier: FuelTier)
    | FighterLost
    | FighterLaunched
    | Shields(up: bool)
    | FighterHull(health: real)
    | ShipHull(health: real)
    | ShipDestroyed
    | MainMenu
    | CmdrLoaded(commander: string, rank: Option<string>)
    | DroppedAt(site: string)
    | BaitFailed(count: int)
    | SecurityAttack
    | CargoStolen(cargo: string)
    | MissionsLoaded(active: int)
    | MissionTaken(active: int)
    | MissionClosed(active: int)
    | MeritsGained(merits: int, power: string)
    | QuitToDesktop
    | Departed(system: string, jump: bool)
    | KillRateLow
    | LastKillAgo(minutes: int)
    | NoKillsYet(minutes: int)
    | TotalKills(kills: int)
    | TotalBounties(bounties: int)
    | TotalMerits(merits: int)
    | StatsReset
    | MonitorStarted
    | MonitorStopped

  /** One thing the monitor would print or send. */
  datatype Emission =
    | Local(topic: Topic)                 // printed on the terminal
    | Remote(topic: Topic, ping: bool)    // handed to the webhook, with or without a mention
    | SuppressNotice                      // the one-time "suppressing further duplicates"
    | LevelWarning(key: string)           // getloglevel fell back to a default
    | EventError(event: string)           // a handler raised; the record was skipped
    | TrackingError                       // the health check raised

  predicate IsRemote(e: Emission) { e.Remote? || e.SuppressNotice? }

  /** Per-session counters, the fields of `Instance`. */
  datatype SessionState = SessionState(
    scans: seq<string>,
    lastkill: Option<int>,
    killstime: int,
    killsrecent: seq<int>,
    kills: int,
    bounties: int,
    merits: int,
    lastsecurity: string,
    baitfails: int,
    fuellasttime: Option<int>,
    fuellastremain: real,
    meritstoreport: int)

  /** `Instance.reset()`. */
  const FreshSession := SessionState([], None, 0, [], 0, 0, 0, "", 0, None, 0.0, 0)

  /** The fields of `Tracking`, with the session it owns. */
  datatype TrackState = TrackState(
    deploytime: Option<int>,
    warnednokills: Option<int>,
    warnedkillrate: Option<int>,
    fuelcapacity: real,
    totalkills: int,
    totaltime: int,
    totalbounties: int,
    totalmerits: int,
    killtype: string,
    fighterhull: real,
    missions: bool,
    missionsactive: seq<int>,
    missionredirects: int,
    lasteventname: Option<string>,
    thiseventtime: Option<int>,
    preloading: bool,
    cmdrcombatrank: Option<int>,
    cmdrcombatprogress: Option<int>,
    lastcheck: Option<int>,
    log: LogState,
    session: SessionState)

  /**
   * The fields of `Tracking` that only `logevent` touches: the call counter
   * and the dedup streak (the previous key, its repeat count, and whether the
   * suppression notice went out).
   */
  datatype LogState = LogState(logged: int, dupeevent: Option<string>, duperepeats: int, dupewarn: bool)

  /** `Tracking()` and a fresh `Instance()` at process start. */
  const Initial := TrackState(None, None, None, 64.0, 0, 0, 0, 0, "bounties", 0.0, false, [],
    0, None, None, true, None, None, None, LogState(0, Some(""), 1, false), FreshSession)

  /** Most consecutive remote sends of one dedup key. */
  const DupeMax := 5

  /**
   * `Tracking.sessionstart(reset)`: when not deployed, or when forced, the
   * session starts at the current record's time with fresh counters, no
   * warnings and the health check re-armed at monotonic time `mono`.
   */
  function SessionStart(t: TrackState, reset: bool, mono: int): TrackState {
    if t.deploytime.None? || reset then
      t.(deploytime := t.thiseventtime, session := FreshSession, warnednokills := None,
         warnedkillrate := None, lastcheck := Some(mono))
    else t
  }

  /** `Tracking.sessionend()`: only the deployment time is cleared. */
  function SessionEnd(t: TrackState): (r: TrackState)
    ensures r.deploytime.None?
    ensures r.session == t.session && r.totalkills == t.totalkills && r.totaltime == t.totaltime
    ensures r.(deploytime := t.deploytime) == t
  {
    t.(deploytime := None)
  }

  /** A category's level and the fallback warning fetching it prints, if any. */
  function LevelOf(cfg: Config, key: string): int { GetLogLevel(cfg.levels, key).level }

  function LevelNotes(cfg: Config, key: string): (out: seq<Emission>)
    ensures |out| <= 1
  {
    if GetLogLevel(cfg.levels, key).warned then [LevelWarning(key)] else []
  }

  /** The level after the preload clamp: at most 1 while catching up, unless testing. */
  function EffectiveLevel(t: TrackState, cfg: Config, level: int): int {
    if t.preloading && !cfg.test then (if level > 0 then 1 else 0) else level
  }

  datatype Step = Step(t: TrackState, out: seq<Emission>)

  /** The log fields after one call, with what the call printed and sent. */
  datatype Sent = Sent(log: LogState, out: seq<Emission>)

  /** The repeat count a notification with dedup key `key` starts or continues. */
  function Repeats(l: LogState, key: Option<string>): int {
    if key.Some? && l.dupeevent == key then l.duperepeats + 1 else 1
  }

  /**
   * `logevent`: the requested level is clamped while preloading; the rest
   * depends on the log fields alone.
   */
  function Gate(t: TrackState, cfg: Config, topic: Topic, level: int, key: Option<string>): Step {
    var s := Log(t.log, cfg, topic, EffectiveLevel(t, cfg, level), key);
    Step(t.(log := s.log), s.out)
  }

  /**
   * `logevent` at effective level `lvl`: prints locally at a positive level
   * outside test mode, counts every call, and at a level above 1 (with a
   * webhook) runs the dedup streak.
   */
  function Log(l: LogState, cfg: Config, topic: Topic, lvl: int, key: Option<string>): Sent {
    var local := if lvl > 0 && !cfg.test then [Local(topic)] else [];
    var l1 := l.(logged := l.logged + 1);
    if cfg.discordEnabled && lvl > 1 then
      var d := Dedup(l1, topic, lvl, key);
      Sent(d.log, local + d.out)
    else Sent(l1, local)
  }

  /**
   * The dedup streak of one notification eligible for remote delivery at level
   * `lvl`: a key equal to the previous one extends the streak, anything else
   * starts a new one; up to DupeMax sends, then one suppression notice; the
   * mention only on the first message of a streak.
   */
  function Dedup(l: LogState, topic: Topic, lvl: int, key: Option<string>): Sent {
    var repeats := Repeats(l, key);
    var warn := if key.Some? && l.dupeevent == key then l.dupewarn else false;
    var l2 := l.(dupeevent := key, duperepeats := repeats, dupewarn := warn);
    if repeats <= DupeMax then Sent(l2, [Remote(topic, lvl > 2 && repeats == 1)])
    else if !warn then Sent(l2.(dupewarn := true), [SuppressNotice])
    else Sent(l2, [])
  }

  /** What one `logevent` call prints, sends and records, at effective level `lvl`. */
  lemma LogContract(l: LogState, cfg: Config, topic: Topic, lvl: int, key: Option<string>)
    ensures var r := Log(l, cfg, topic, lvl, key);
      && r.log.logged == l.logged + 1
      && ((Local(topic) in r.out) <==> lvl > 0 && !cfg.test)
      && (!(cfg.discordEnabled && lvl > 1) ==>
            r.log == l.(logged := l.logged + 1) && forall e :: e in r.out ==> !IsRemote(e))
      && (cfg.discordEnabled && lvl > 1 ==>
            r.log.dupeevent == key && r.log.duperepeats == Repeats(l, key)
            && ((exists p :: Remote(topic, p) in r.out) <==> r.log.duperepeats <= DupeMax)
            && (SuppressNotice in r.out <==>
                  r.log.duperepeats > DupeMax && !(key.Some? && l.dupeevent == key && l.dupewarn))
            && (r.log.duperepeats > DupeMax ==> r.log.dupewarn))
      && (Remote(topic, true) in r.out ==> lvl > 2 && r.log.duperepeats == 1)
      && |r.out| <= 2
  {
    if cfg.discordEnabled && lvl > 1 {
      var l1 := l.(logged := l.logged + 1);
      var d := Dedup(l1, topic, lvl, key);
      assert Repeats(l1, key) == Repeats(l, key);
      if Repeats(l, key) <= DupeMax {
        assert Remote(topic, lvl > 2 && Repeats(l, key) == 1) in d.out;
      }
    }
  }

  /** While catching up on old records, nothing reaches the webhook. */
  lemma PreloadIsLocal(t: TrackState, cfg: Config, topic: Topic, level: int, key: Option<string>)
    requires t.preloading && !cfg.test
    ensures forall e :: e in Gate(t, cfg, topic, level, key).out ==> !IsRemote(e)
  {
    LogContract(t.log, cfg, topic, EffectiveLevel(t, cfg, level), key);
  }

  /** `n` consecutive `logevent` calls with the same topic, effective level and dedup key. */
  function Repeat(l: LogState, cfg: Config, topic: Topic, lvl: int, key: Option<string>, n: nat): Sent
    decreases n
  {
    if n == 0 then Sent(l, [])
    else
      var a := Repeat(l, cfg, topic, lvl, key, n - 1);
      var b := Log(a.log, cfg, topic, lvl, key);
      Sent(b.log, a.out + b.out)
  }

  function Min(a: int, b: int): int { if a <= b then a else b }

  /**
   * After `n` notifications of a streak: the log fields, how many messages
   * went out (with and without the mention) and how many suppression notices.
   */
  predicate StreakAfter(l: LogState, topic: Topic, lvl: int, key: Option<string>, n: nat, r: Sent) {
    && r.log == LogState(l.logged + n, key, n, n > DupeMax)
    && multiset(r.out)[Remote(topic, true)] + multiset(r.out)[Remote(topic, false)] == Min(n, DupeMax)
    && multiset(r.out)[Remote(topic, true)] == (if lvl > 2 then 1 else 0)
    && multiset(r.out)[SuppressNotice] == (if n > DupeMax then 1 else 0)
  }

  /**
   * A streak of `n` remote-eligible notifications under one dedup key that
   * differs from the previous one: the first DupeMax are sent, the first of
   * them with the mention when the level asks for one, then a single
   * suppression notice, then silence.
   */
  lemma {:induction false} DedupStreak(l: LogState, cfg: Config, topic: Topic, lvl: int, key: Option<string>, n: nat)
    requires cfg.discordEnabled && lvl > 1 && key.Some? && l.dupeevent != key && n > 0
    ensures StreakAfter(l, topic, lvl, key, n, Repeat(l, cfg, topic, lvl, key, n))
    decreases n
  {
    if n == 1 {
      StreakStart(l, cfg, topic, lvl, key);
      assert Repeat(l, cfg, topic, lvl, key, 1) == Log(l, cfg, topic, lvl, key);
    } else {
      var a := Repeat(l, cfg, topic, lvl, key, n - 1);
      DedupStreak(l, cfg, topic, lvl, key, n - 1);
      StreakStep(l, cfg, topic, lvl, key, n - 1, a);
      StreakExtends(l, topic, lvl, key, n - 1, a, Log(a.log, cfg, topic, lvl, key));
    }
  }

  /** What the `n + 1`-th notification of a streak sends, started from log fields `l`. */
  predicate NextInStreak(l: LogState, topic: Topic, key: Option<string>, n: nat, b: Sent) {
    && b.log == LogState(l.logged + n + 1, key, n + 1, n + 1 > DupeMax)
    && multiset(b.out)[Remote(topic, true)] == 0
    && multiset(b.out)[Remote(topic, false)] == (if n + 1 <= DupeMax then 1 else 0)
    && multiset(b.out)[SuppressNotice] == (if n == DupeMax then 1 else 0)
  }

  /** The counts of a streak add up across one more notification `b`. */
  lemma StreakExtends(l: LogState, topic: Topic, lvl: int, key: Option<string>, n: nat, a: Sent, b: Sent)
    requires StreakAfter(l, topic, lvl, key, n, a) && NextInStreak(l, topic, key, n, b)
    ensures StreakAfter(l, topic, lvl, key, n + 1, Sent(b.log, a.out + b.out))
  {
    assert multiset(a.out + b.out) == multiset(a.out) + multiset(b.out);
  }

  /** The first notification of a streak is sent, with the mention at a level above 2. */
  lemma StreakStart(l: LogState, cfg: Config, topic: Topic, lvl: int, key: Option<string>)
    requires cfg.discordEnabled && lvl > 1 && key.Some? && l.dupeevent != key
    ensures StreakAfter(l, topic, lvl, key, 1, Log(l, cfg, topic, lvl, key))
  {
  }

  /** A later notification of a streak: sent without mention while within DupeMax, then one notice. */
  lemma StreakStep(l: LogState, cfg: Config, topic: Topic, lvl: int, key: Option<string>, n: nat, a: Sent)
    requires cfg.discordEnabled && lvl > 1 && key.Some? && n > 0
    requires StreakAfter(l, topic, lvl, key, n, a)
    ensures NextInStreak(l, topic, key, n, Log(a.log, cfg, topic, lvl, key))
  {
  }

  /** A gate call preceded by the getloglevel warning for `key`. */
  function GateAt(t: TrackState, cfg: Config, topic: Topic, key: string, dedup: Option<string>): Step {
    var g := Gate(t, cfg, topic, LevelOf(cfg, key), dedup);
    Step(g.t, LevelNotes(cfg, key) + g.out)
  }
}
