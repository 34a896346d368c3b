/**
 * The lifecycle logic of a seed node (SeedNodeMain.java): when it restarts
 * periodically, when its connection-loss watchdog shuts it down, how it reacts
 * to DAO checkpoint failures and resync requests, and its graceful teardown.
 *
 * The UserThread timer facility is an explicit scheduler: a clock in seconds
 * and a map from timer id to pending timer. A timer whose due time has been
 * reached runs when one of the Run methods is called for it; callbacks run one
 * at a time, as on the single user thread. What the environment would be asked
 * (the current UTC hour, the seed roster, the own address, the count of
 * connection-loss events) is passed in as parameters. Calls into the
 * superclass and into the SeedNode collaborator are recorded, in order, in
 * `log`.
 */
module SeedNode {
  import opened Roster
  import opened Schedule

  datatype Option<T> = None | Some(value: T)

  /** Only BTC_REGTEST is treated differently by this class. */
  datatype Network = BtcRegtest | OtherNetwork

  /** The configuration read by the class: DevEnv.isDevMode(),
    * Config.useLocalhostForP2P, PREVENT_PERIODIC_SHUTDOWN_AT_SEED_NODE and the
    * base currency network. */
  datatype Config = Config(
    devMode: bool,
    useLocalhostForP2P: bool,
    preventPeriodicShutdown: bool,
    network: Network)

  datatype CookieKey = CleanTorDirAtRestart

  /** The callbacks the class hands to UserThread. */
  datatype Task =
    | RestartDelay(index: nat)   // the 2-hour runAfter of startShutDownInterval
    | RestartPoll(index: nat)    // the 10-minute runPeriodically comparing hours
    | ArmConnectionLossCheck     // the 60-second runAfter of onHiddenServicePublished
    | ConnectionLossCheck        // the 30-second runPeriodically of the watchdog
    | ResyncShutDown             // the staggered runAfter of the resync handler

  /** A pending timer: it runs `task` once the clock reaches `due`. A period of
    * 0 marks a one-shot timer (runAfter); a periodic timer
    * (runPeriodically) is due again one period after each run. */
  datatype Timer = Timer(task: Task, due: int, period: nat)

  /** Calls out of the class, recorded in the order they are made. */
  datatype Event =
    | SuperStartShutDownInterval   // super.startShutDownInterval()
    | SeedNodeShutDown             // seedNode.shutDown()
    | TimerStopped(id: nat)        // checkConnectionLossTimer.stop()
    | SuperGracefulShutDown        // super.gracefulShutDown(resultHandler)
    | ShutDown                     // shutDown(this)
    | CookiePut(key: CookieKey, value: bool)

  /** Each task is registered one-shot or with its own fixed period. */
  predicate WellFormed(t: Timer)
  {
    match t.task
    case RestartDelay(_) => t.period == 0
    case RestartPoll(_) => t.period == PollIntervalSec
    case ArmConnectionLossCheck => t.period == 0
    case ConnectionLossCheck => t.period == CheckConnectionLossSec
    case ResyncShutDown => t.period == 0
  }

  /** What startShutDownInterval does for a given configuration and rank. */
  datatype IntervalPlan = Skipped | Fallback | HourlySchedule(index: nat)

  function PlanShutDownInterval(config: Config, index: int): (plan: IntervalPlan)
    requires index >= -1
    ensures plan.Skipped? <==> config.devMode || config.useLocalhostForP2P
    ensures plan.Fallback? <==> !plan.Skipped? && index == -1
    ensures plan.HourlySchedule? ==> plan.index == index
  {
    if config.devMode || config.useLocalhostForP2P then Skipped
    else if index == -1 then Fallback
    else HourlySchedule(index)
  }

  class SeedNodeMain {
    const config: Config
    /** Scheduler time, in seconds since start. */
    var clock: nat
    /** Pending UserThread timers by id. */
    var timers: map<nat, Timer>
    /** The id the next registered timer gets. */
    var nextId: nat
    /** The id of the watchdog timer once one was created; never reset. */
    var checkConnectionLossTimer: Option<nat>
    /** The persisted cookie of the user. */
    var cookie: map<CookieKey, bool>
    /** Calls made out of the class, oldest first. */
    var log: seq<Event>
    /** How many watchdog timers were ever created. */
    ghost var watchdogsCreated: nat

    ghost predicate Valid()
      reads this
    {
      && (forall id :: id in timers ==> id < nextId && WellFormed(timers[id]))
      && (forall id :: id in timers && timers[id].task == ConnectionLossCheck ==>
            checkConnectionLossTimer == Some(id))
      && (checkConnectionLossTimer.Some? ==> checkConnectionLossTimer.value < nextId)
      && watchdogsCreated == (if checkConnectionLossTimer.Some? then 1 else 0)
    }

    /** At most one watchdog timer is ever pending. */
    lemma AtMostOneConnectionLossCheck(a: nat, b: nat)
      requires Valid()
      requires a in timers && timers[a].task == ConnectionLossCheck
      requires b in timers && timers[b].task == ConnectionLossCheck
      ensures a == b
    {
    }

    /** The timers left after the watchdog timer, if any, is stopped. */
    ghost function AfterStop(ts: map<nat, Timer>): map<nat, Timer>
      reads this
    {
      if checkConnectionLossTimer.Some? then ts - {checkConnectionLossTimer.value} else ts
    }

    /** The calls gracefulShutDown makes: the seed node's shutdown, the stop
      * of the watchdog timer if one exists, then the superclass teardown. */
    ghost function TeardownEvents(): seq<Event>
      reads this
    {
      [SeedNodeShutDown]
      + (if checkConnectionLossTimer.Some? then [TimerStopped(checkConnectionLossTimer.value)] else [])
      + [SuperGracefulShutDown]
    }

    constructor (config: Config, cookie: map<CookieKey, bool>)
      ensures Valid()
      ensures this.config == config && this.cookie == cookie
      ensures clock == 0 && timers == map[] && nextId == 0
      ensures checkConnectionLossTimer == None && log == []
    {
      this.config := config;
      this.cookie := cookie;
      clock := 0;
      timers := map[];
      nextId := 0;
      checkConnectionLossTimer := None;
      log := [];
      watchdogsCreated := 0;
    }

    /** Time passes; no timer runs by itself. */
    method Advance(seconds: nat)
      requires Valid()
      modifies this`clock
      ensures Valid()
      ensures clock == old(clock) + seconds
    {
      clock := clock + seconds;
    }

    /** UserThread.runAfter / runPeriodically: register a timer under a fresh id. */
    method Register(task: Task, delay: int, period: nat) returns (id: nat)
      requires forall k :: k in timers ==> k < nextId
      modifies this`timers, this`nextId
      ensures id == old(nextId) && nextId == id + 1
      ensures id !in old(timers)
      ensures timers == old(timers)[id := Timer(task, clock + delay, period)]
    {
      id := nextId;
      timers := timers[id := Timer(task, clock + delay, period)];
      nextId := nextId + 1;
    }

    /** The periodic restart (startShutDownInterval): nothing in dev mode or
      * with localhost networking; the superclass fallback for an unranked
      * node; otherwise a one-shot wait of 2 hours before polling starts. */
    method StartShutDownInterval(roster: seq<string>, me: string)
      requires Valid()
      modifies this`timers, this`nextId, this`log
      ensures Valid()
      ensures var plan := PlanShutDownInterval(config, MyIndex(roster, me));
        && log == old(log) + (if plan.Fallback? then [SuperStartShutDownInterval] else [])
        && (plan.HourlySchedule? ==>
              && timers == old(timers)[old(nextId) := Timer(RestartDelay(plan.index), clock + InitialDelaySec, 0)]
              && nextId == old(nextId) + 1)
        && (!plan.HourlySchedule? ==> timers == old(timers) && nextId == old(nextId))
    {
      if config.devMode || config.useLocalhostForP2P {
        return;
      }
      var myIndex := MyIndex(roster, me);
      if myIndex == -1 {
        log := log + [SuperStartShutDownInterval];
        return;
      }
      var _ := Register(RestartDelay(myIndex), InitialDelaySec, 0);
    }

    /** The 2-hour wait is over: start the 10-minute restart poll, whose
      * first run is 10 minutes later. */
    method RunRestartDelay(id: nat)
      requires Valid()
      requires id in timers && timers[id].task.RestartDelay? && timers[id].due <= clock
      modifies this`timers, this`nextId
      ensures Valid()
      ensures timers == (old(timers) - {id})[old(nextId) :=
                Timer(RestartPoll(old(timers)[id].task.index), clock + PollIntervalSec, PollIntervalSec)]
      ensures nextId == old(nextId) + 1
    {
      var index := timers[id].task.index;
      timers := timers - {id};
      var _ := Register(RestartPoll(index), PollIntervalSec, PollIntervalSec);
    }

    /** One restart poll: shut down when the current UTC hour is the target
      * hour of this rank, computed from the roster size at poll time. */
    method RunRestartPoll(id: nat, utcHour: nat, roster: seq<string>)
      requires Valid()
      requires id in timers && timers[id].task.RestartPoll? && timers[id].due <= clock
      requires utcHour < 24
      modifies this`timers, this`log
      ensures Valid()
      ensures timers == old(timers)[id := old(timers)[id].(due := clock + PollIntervalSec)]
      ensures var target := TargetHour(|roster|, old(timers)[id].task.index);
        log == old(log) + (if utcHour == target then [ShutDown] else [])
    {
      var t := timers[id];
      timers := timers[id := t.(due := clock + t.period)];
      var target := TargetHour(|roster|, t.task.index);
      if utcHour == target {
        log := log + [ShutDown];
      }
    }

    /** setupConnectionLossCheck: nothing on BTC_REGTEST or when a watchdog
      * timer already exists; otherwise create the 30-second watchdog. */
    method SetupConnectionLossCheck()
      requires Valid()
      modifies this`timers, this`nextId, this`checkConnectionLossTimer, this`watchdogsCreated
      ensures Valid()
      ensures config.network == BtcRegtest || old(checkConnectionLossTimer).Some? ==>
        && timers == old(timers) && nextId == old(nextId)
        && checkConnectionLossTimer == old(checkConnectionLossTimer)
        && watchdogsCreated == old(watchdogsCreated)
      ensures config.network != BtcRegtest && old(checkConnectionLossTimer).None? ==>
        && checkConnectionLossTimer == Some(old(nextId))
        && timers == old(timers)[old(nextId) := Timer(ConnectionLossCheck, clock + CheckConnectionLossSec, CheckConnectionLossSec)]
        && nextId == old(nextId) + 1
        && watchdogsCreated == old(watchdogsCreated) + 1
    {
      if config.network == BtcRegtest {
        return;
      }
      if checkConnectionLossTimer.Some? {
        return;
      }
      var id := Register(ConnectionLossCheck, CheckConnectionLossSec, CheckConnectionLossSec);
      checkConnectionLossTimer := Some(id);
      watchdogsCreated := watchdogsCreated + 1;
    }

    /** One watchdog tick: after more than one loss of all connections, set
      * the flag to clean the Tor directory at restart, then shut down. */
    method RunConnectionLossCheck(id: nat, lostEvents: int)
      requires Valid()
      requires id in timers && timers[id].task == ConnectionLossCheck && timers[id].due <= clock
      modifies this`timers, this`cookie, this`log
      ensures Valid()
      ensures timers == old(timers)[id := old(timers)[id].(due := clock + CheckConnectionLossSec)]
      ensures lostEvents > 1 ==>
        && cookie == old(cookie)[CleanTorDirAtRestart := true]
        && log == old(log) + [CookiePut(CleanTorDirAtRestart, true), ShutDown]
      ensures lostEvents <= 1 ==> cookie == old(cookie) && log == old(log)
    {
      var t := timers[id];
      timers := timers[id := t.(due := clock + t.period)];
      if lostEvents > 1 {
        cookie := cookie[CleanTorDirAtRestart := true];
        log := log + [CookiePut(CleanTorDirAtRestart, true)];
        log := log + [ShutDown];
      }
    }

    /** gracefulShutDown: shut the seed node down, stop the watchdog timer if
      * one exists, then delegate to the superclass. The field keeps its
      * value, and every call delegates again. */
    method GracefulShutDown()
      requires Valid()
      modifies this`timers, this`log
      ensures Valid()
      ensures timers == AfterStop(old(timers))
      ensures log == old(log) + TeardownEvents()
    {
      log := log + [SeedNodeShutDown];
      if checkConnectionLossTimer.Some? {
        timers := timers - {checkConnectionLossTimer.value};
        log := log + [TimerStopped(checkConnectionLossTimer.value)];
      }
      log := log + [SuperGracefulShutDown];
    }

    /** A failed DAO checkpoint shuts down at once. */
    method OnCheckpointFailed()
      requires Valid()
      modifies this`timers, this`log
      ensures Valid()
      ensures timers == AfterStop(old(timers))
      ensures log == old(log) + TeardownEvents()
    {
      GracefulShutDown();
    }

    /** A request to resync the DAO state from resources shuts down after
      * `1 + index * 30` seconds. */
    method OnResyncDaoStateFromResources(roster: seq<string>, me: string)
      requires Valid()
      modifies this`timers, this`nextId
      ensures Valid()
      ensures timers == old(timers)[old(nextId) :=
                Timer(ResyncShutDown, clock + StaggerDelay(MyIndex(roster, me)), 0)]
      ensures nextId == old(nextId) + 1
    {
      var _ := Register(ResyncShutDown, StaggerDelay(MyIndex(roster, me)), 0);
    }

    /** The staggered resync shutdown is due. */
    method RunResyncShutDown(id: nat)
      requires Valid()
      requires id in timers && timers[id].task == ResyncShutDown && timers[id].due <= clock
      modifies this`timers, this`log
      ensures Valid()
      ensures timers == AfterStop(old(timers) - {id})
      ensures log == old(log) + TeardownEvents()
    {
      timers := timers - {id};
      GracefulShutDown();
    }

    /** The hidden service is published: start the periodic restart unless it
      * is prevented by configuration, and arm the watchdog 60 seconds later. */
    method OnHiddenServicePublished(roster: seq<string>, me: string)
      requires Valid()
      modifies this`timers, this`nextId, this`log
      ensures Valid()
      ensures var plan := if config.preventPeriodicShutdown then Skipped
                          else PlanShutDownInterval(config, MyIndex(roster, me));
        var armId := if plan.HourlySchedule? then old(nextId) + 1 else old(nextId);
        var interval := if plan.HourlySchedule?
          then old(timers)[old(nextId) := Timer(RestartDelay(plan.index), clock + InitialDelaySec, 0)]
          else old(timers);
        && log == old(log) + (if plan.Fallback? then [SuperStartShutDownInterval] else [])
        && timers == interval[armId := Timer(ArmConnectionLossCheck, clock + ConnectionLossCheckDelaySec, 0)]
        && nextId == armId + 1
    {
      if !config.preventPeriodicShutdown {
        StartShutDownInterval(roster, me);
      }
      assert Valid();
      var _ := Register(ArmConnectionLossCheck, ConnectionLossCheckDelaySec, 0);
    }

    /** The 60 seconds are over: arm the watchdog. */
    method RunArmConnectionLossCheck(id: nat)
      requires Valid()
      requires id in timers && timers[id].task == ArmConnectionLossCheck && timers[id].due <= clock
      modifies this`timers, this`nextId, this`checkConnectionLossTimer, this`watchdogsCreated
      ensures Valid()
      ensures config.network == BtcRegtest || old(checkConnectionLossTimer).Some? ==>
        && timers == old(timers) - {id} && nextId == old(nextId)
        && checkConnectionLossTimer == old(checkConnectionLossTimer)
      ensures config.network != BtcRegtest && old(checkConnectionLossTimer).None? ==>
        && checkConnectionLossTimer == Some(old(nextId))
        && timers == (old(timers) - {id})[old(nextId) :=
             Timer(ConnectionLossCheck, clock + CheckConnectionLossSec, CheckConnectionLossSec)]
        && nextId == old(nextId) + 1
    {
      timers := timers - {id};
      SetupConnectionLossCheck();
    }

    /** handleUncaughtException: an OutOfMemoryError or an explicit request
      * shuts down gracefully; any other throwable is ignored. */
    method HandleUncaughtException(outOfMemory: bool, doShutDown: bool)
      requires Valid()
      modifies this`timers, this`log
      ensures Valid()
      ensures outOfMemory || doShutDown ==>
        timers == AfterStop(old(timers)) && log == old(log) + TeardownEvents()
      ensures !outOfMemory && !doShutDown ==> timers == old(timers) && log == old(log)
    {
      if outOfMemory || doShutDown {
        GracefulShutDown();
      }
    }
  }
}
