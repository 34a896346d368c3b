/**
 * Clients of SeedNodeMain that use only the contracts of its methods:
 * verified call sequences for the watchdog and the periodic restart.
 */
module Scenarios {
  import opened Roster
  import opened Schedule
  import opened SeedNode

  /** The watchdog sees the loss counts 0, 1 and 2 on three ticks: only the
    * third tick writes the clean-Tor flag and then shuts down; arming again
    * creates no second timer. */
  method WatchdogScenario()
  {
    var node := new SeedNodeMain(Config(false, false, false, OtherNetwork), map[]);
    node.SetupConnectionLossCheck();
    var id := node.checkConnectionLossTimer.value;
    assert node.timers == map[id := Timer(ConnectionLossCheck, 30, 30)];

    node.Advance(30);
    node.RunConnectionLossCheck(id, 0);
    node.Advance(30);
    node.RunConnectionLossCheck(id, 1);
    assert node.log == [] && node.cookie == map[];

    node.Advance(30);
    node.RunConnectionLossCheck(id, 2);
    assert node.log == [CookiePut(CleanTorDirAtRestart, true), ShutDown];
    assert node.cookie[CleanTorDirAtRestart];

    node.SetupConnectionLossCheck();
    assert node.checkConnectionLossTimer == Some(id) && node.timers.Keys == {id};

    node.GracefulShutDown();
    assert node.timers == map[];
    assert node.log[2..] == [SeedNodeShutDown, TimerStopped(id), SuperGracefulShutDown];
  }

  /** On BTC_REGTEST the watchdog is never armed. */
  method RegtestScenario()
  {
    var node := new SeedNodeMain(Config(false, false, false, BtcRegtest), map[]);
    node.SetupConnectionLossCheck();
    assert node.checkConnectionLossTimer == None && node.timers == map[];
  }

  /** A fleet of one: the only seed node has rank 0 and restarts at hour 0;
    * its first hour check comes 2 hours and 10 minutes after arming. */
  method SingleNodeRestartScenario()
  {
    var roster := ["seed.onion:8000"];
    var node := new SeedNodeMain(Config(false, false, false, OtherNetwork), map[]);
    node.StartShutDownInterval(roster, "seed.onion:8000");
    assert MyIndex(roster, "seed.onion:8000") == 0;
    assert node.timers == map[0 := Timer(RestartDelay(0), 7200, 0)];

    node.Advance(7200);
    node.RunRestartDelay(0);
    assert node.timers == map[1 := Timer(RestartPoll(0), 7800, 600)];

    node.Advance(600);
    node.RunRestartPoll(1, 5, roster);
    assert node.log == [];
    node.Advance(600);
    node.RunRestartPoll(1, 0, roster);
    assert node.log == [ShutDown];
  }

  /** An unranked node falls back to the superclass schedule and registers
    * no timer of its own. */
  method UnrankedScenario()
  {
    var node := new SeedNodeMain(Config(false, false, false, OtherNetwork), map[]);
    node.StartShutDownInterval(["a:1", "b:2"], "c:3");
    assert node.log == [SuperStartShutDownInterval] && node.timers == map[];
  }

  /** A checkpoint failure within 60 seconds of publication does not cancel
    * the arming timer: the watchdog is still created afterwards. */
  method TeardownBeforeArmingScenario()
  {
    var node := new SeedNodeMain(Config(false, false, true, OtherNetwork), map[]);
    node.OnHiddenServicePublished(["seed.onion:8000"], "seed.onion:8000");
    assert node.timers == map[0 := Timer(ArmConnectionLossCheck, 60, 0)];
    node.OnCheckpointFailed();
    assert node.log == [SeedNodeShutDown, SuperGracefulShutDown];
    node.Advance(60);
    node.RunArmConnectionLossCheck(0);
    assert node.checkConnectionLossTimer == Some(1);
  }
}
