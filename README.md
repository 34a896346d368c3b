# Seed node lifecycle scheduling, modelled in Dafny

A Bisq seed node is one of a small, known fleet of seed nodes. `SeedNodeMain`
decides on its own, without talking to the other seed nodes, when this node
restarts and when it shuts down:

- **Rank** (`getMyIndex`): the roster of seed node addresses is sorted by full
  address and the own address is looked up; the position is the node's rank,
  or -1 when the node is not in the roster.
- **Periodic restart** (`startShutDownInterval`): skipped in dev mode and with
  localhost networking; an unranked node hands over to the superclass;
  otherwise the node waits 2 hours, then every 10 minutes compares the UTC hour
  with `round(24 / size * rank) % 24` and shuts down when they match.
- **Connection-loss watchdog** (`setupConnectionLossCheck`, the
  `checkConnectionLossTimer` field): armed 60 seconds after the hidden service
  is published, except on BTC_REGTEST and except when a watchdog already
  exists; every 30 seconds it shuts down, after setting the
  `CLEAN_TOR_DIR_AT_RESTART` cookie flag, once more than one loss of all
  connections has been counted.
- **DAO triggers and teardown**: a failed checkpoint shuts down at once; a
  request to resync the DAO state from resources shuts down after
  `1 + rank * 30` seconds; `gracefulShutDown` shuts the seed node down, stops
  the watchdog timer if one exists, and then delegates to the superclass.

Files:

- `roster.dfy`, module `Roster`: Java's string order, the sort, `indexOf` and
  the rank, with the proofs that the rank is the number of roster entries
  sorting before the own address, that it does not depend on roster order, and
  that different members have different ranks.
- `schedule.dfy`, module `Schedule`: the timing constants, the target hour
  and the resync delay, with the proofs that target hours stay in `[0, 24)`,
  that in a fleet of at most 24 nodes different members restart at different
  hours, and that resync shutdowns of different members are at least 30
  seconds apart.
- `seed_node_main.dfy`, module `SeedNode`: class `SeedNodeMain` with the
  mutable state (`checkConnectionLossTimer`, the cookie, the pending timers)
  and one method per operation or timer callback.
- `scenarios.dfy`, module `Scenarios`: verified call sequences that use only
  the method contracts (the watchdog fed loss counts 0, 1, 2; regtest; a one-node fleet
  restarting at hour 0; an unranked node).

The timer facility `UserThread` is modelled as an explicit scheduler owned by
the object: a clock in seconds and a map from timer id to pending timer (its
callback, due time and period). `Register` stands for `runAfter` and
`runPeriodically`; a periodic timer's first run is one period after
registration, and each run makes it due again one period later. Nothing runs
by itself: each callback is a `Run…` method that may be called for a timer
whose due time has been reached, so callbacks run one at a time. Calls out of
the class (`super.startShutDownInterval`, `seedNode.shutDown`, the timer's
`stop`, `super.gracefulShutDown`, `shutDown(this)`, the cookie write) are
appended, in order, to the `log` field, which is how the order "cookie flag
before shutdown" and "stop the timer before the superclass teardown" is stated.

Behaviour kept exactly as the code has it, although a reader might expect
otherwise:

- The resync delay has no case for an unranked node: with rank -1 it is
  `1 + (-1) * 30 = -29` seconds, a timer that is already due.
- `gracefulShutDown` is not idempotent: every call shuts the seed node down,
  stops the watchdog timer and delegates again. It does not reset
  `checkConnectionLossTimer`, so a stopped watchdog is never re-armed.
- `gracefulShutDown` stops only the watchdog timer. This class never stops
  the restart timers, the 60-second timer that arms the watchdog or a pending
  resync timer. If the process is still running when they fire, a watchdog is
  created or `gracefulShutDown` runs again. Whether the superclass's teardown
  ends the process first is not part of this model.
- Nothing in this class stops the watchdog timer after it has called
  `shutDown(this)`. Whether the superclass, which receives this object, calls
  back `gracefulShutDown` and so stops it is not part of this model; the model
  records `shutDown(this)` as an event and leaves the timer pending.
- The roster size is read at every poll, while the rank was fixed when the
  schedule was armed.
- With a roster of size 0 at poll time the Java expression does not divide by
  zero: `24d / 0` is infinity, so the target is 0 for rank 0 (NaN rounds to 0)
  and `Long.MAX_VALUE % 24 = 7` for any other rank.

## Model

| member | source | states |
|---|---|---|
| `Roster.Less` | seednode/src/main/java/bisq/seednode/SeedNodeMain.java:241 | the full-address order never relates a string to itself, and a proper prefix sorts before the longer string |
| `Roster.LessIsCompareTo` | seednode/src/main/java/bisq/seednode/SeedNodeMain.java:241 | the order is exactly `String.compareTo < 0`: `a` is a proper prefix of `b`, or at the first differing position `a` has the smaller character |
| `Roster.LessTotal` | seednode/src/main/java/bisq/seednode/SeedNodeMain.java:241 | the full-address order used by the sort is total: two strings are equal or one sorts before the other |
| `Roster.LessTransitive` | seednode/src/main/java/bisq/seednode/SeedNodeMain.java:241 | the full-address order is transitive |
| `Roster.InsertSorted` | seednode/src/main/java/bisq/seednode/SeedNodeMain.java:241 | inserting into an ascending list keeps it ascending |
| `Roster.Sort` | seednode/src/main/java/bisq/seednode/SeedNodeMain.java:240-241 | the sorted copy has the roster's length and elements (a permutation) and is ascending by full address |
| `Roster.IndexOf` | seednode/src/main/java/bisq/seednode/SeedNodeMain.java:244 | `indexOf` is -1 exactly when the address is absent; otherwise it is a position holding the address with no earlier occurrence |
| `Roster.MyIndex` | seednode/src/main/java/bisq/seednode/SeedNodeMain.java:238-245 | the rank lies in `[-1, size)` and is -1 exactly when the own address is not in the roster |
| `Roster.CountLessPermutation` | seednode/src/main/java/bisq/seednode/SeedNodeMain.java:240 | the number of entries sorting before an address depends only on the roster's elements, not their order |
| `Roster.IndexOfSorted` | seednode/src/main/java/bisq/seednode/SeedNodeMain.java:244 | in an ascending list the first position of an address is the number of entries sorting before it |
| `Roster.RankIsCountOfSmaller` | seednode/src/main/java/bisq/seednode/SeedNodeMain.java:238-245 | a member's rank equals the number of roster entries whose full address sorts strictly before its own |
| `Roster.RankPermutationInvariant` | seednode/src/main/java/bisq/seednode/SeedNodeMain.java:240-241 | any reordering of the roster gives the same rank (the sort is internal) |
| `Roster.CountLessStrict` | seednode/src/main/java/bisq/seednode/SeedNodeMain.java:241 | a larger address has at least as many entries before it, and strictly more when the smaller one is a member |
| `Roster.IndexOfAnySortedPermutation` | seednode/src/main/java/bisq/seednode/SeedNodeMain.java:240-244 | looking the own address up in any ascending permutation of the roster gives the rank, so the rank does not depend on the sort algorithm |
| `Roster.RanksDistinct` | seednode/src/main/java/bisq/seednode/SeedNodeMain.java:238-245 | two different members of the roster never get the same rank |
| `Schedule.RoundedHour` | seednode/src/main/java/bisq/seednode/SeedNodeMain.java:225 | `Math.round(24d / size * index)` is the integer within one half of `24 * index / size`, ties rounding up |
| `Schedule.TargetHour` | seednode/src/main/java/bisq/seednode/SeedNodeMain.java:224-225 | the target hour is always in `[0, 24)`; with size 0 it is 0 for rank 0 and 7 otherwise |
| `Schedule.TargetHourNoWrap` | seednode/src/main/java/bisq/seednode/SeedNodeMain.java:223-225 | for fewer than 48 nodes and a rank inside the fleet, `% 24` never wraps |
| `Schedule.TargetHourIncreasing` | seednode/src/main/java/bisq/seednode/SeedNodeMain.java:211-225 | for at most 24 nodes, higher ranks restart at strictly later hours, so ranks never share an hour |
| `Schedule.TargetHourTwelveNodes` | seednode/src/main/java/bisq/seednode/SeedNodeMain.java:223-225 | in a fleet of 12, rank r restarts at hour 2r |
| `Schedule.MembersRestartAtDistinctHours` | seednode/src/main/java/bisq/seednode/SeedNodeMain.java:211-245 | in a fleet of at most 24, two different members restart at different hours |
| `Schedule.StaggerDelay` | seednode/src/main/java/bisq/seednode/SeedNodeMain.java:139 | the resync delay `1 + index * 30` is at least 1 s for a ranked node and, with no case for -1, negative for an unranked one |
| `Schedule.MembersResyncStaggered` | seednode/src/main/java/bisq/seednode/SeedNodeMain.java:135-139 | a member's resync shutdown comes at least 1 s after the request, and two different members shut down at least 30 s apart |
| `SeedNode.PlanShutDownInterval` | seednode/src/main/java/bisq/seednode/SeedNodeMain.java:200-209 | the restart schedule is skipped exactly in dev mode or with localhost networking, falls back to the superclass exactly for rank -1, and otherwise uses the rank |
| `SeedNode.SeedNodeMain.constructor` | seednode/src/main/java/bisq/seednode/SeedNodeMain.java:66-73 | a new node has no watchdog timer, no pending timers and has made no calls |
| `SeedNode.SeedNodeMain.AtMostOneConnectionLossCheck` | seednode/src/main/java/bisq/seednode/SeedNodeMain.java:254-258 | in every valid state at most one watchdog timer is pending |
| `SeedNode.SeedNodeMain.Register` | seednode/src/main/java/bisq/seednode/SeedNodeMain.java:218-220 | `UserThread.runAfter` / `runPeriodically` add exactly one timer, under a fresh id, due `delay` seconds from now, and touch nothing else |
| `SeedNode.SeedNodeMain.StartShutDownInterval` | seednode/src/main/java/bisq/seednode/SeedNodeMain.java:200-236 | nothing in dev mode or with localhost networking; for rank -1 only the superclass fallback is called; otherwise only a one-shot timer due exactly 2 hours later is added |
| `SeedNode.SeedNodeMain.RunRestartDelay` | seednode/src/main/java/bisq/seednode/SeedNodeMain.java:218-235 | when the 2-hour wait ends it is replaced by a 10-minute periodic poll for the same rank, first due 10 minutes later |
| `SeedNode.SeedNodeMain.RunRestartPoll` | seednode/src/main/java/bisq/seednode/SeedNodeMain.java:220-234 | a poll calls `shutDown` exactly when the UTC hour equals the target hour for the rank and the roster size at poll time, and is due again in 10 minutes |
| `SeedNode.SeedNodeMain.SetupConnectionLossCheck` | seednode/src/main/java/bisq/seednode/SeedNodeMain.java:247-258 | nothing changes on BTC_REGTEST or when a watchdog exists; otherwise one 30-second watchdog is created and recorded in the field; at most one is ever created |
| `SeedNode.SeedNodeMain.RunConnectionLossCheck` | seednode/src/main/java/bisq/seednode/SeedNodeMain.java:258-265 | with more than one lost-connections event the cookie flag is set to true and then `shutDown` is called; otherwise nothing changes but the next due time |
| `SeedNode.SeedNodeMain.GracefulShutDown` | seednode/src/main/java/bisq/seednode/SeedNodeMain.java:190-197 | the seed node is shut down, the watchdog timer (if any) is stopped and removed, then the superclass teardown is called, in that order |
| `SeedNode.SeedNodeMain.OnCheckpointFailed` | seednode/src/main/java/bisq/seednode/SeedNodeMain.java:128-133 | a checkpoint failure runs the full teardown at once, with no delay |
| `SeedNode.SeedNodeMain.OnResyncDaoStateFromResources` | seednode/src/main/java/bisq/seednode/SeedNodeMain.java:135-140 | a resync request adds one one-shot shutdown timer due exactly `1 + rank * 30` seconds later, rank -1 included |
| `SeedNode.SeedNodeMain.RunResyncShutDown` | seednode/src/main/java/bisq/seednode/SeedNodeMain.java:139 | the delayed resync shutdown removes its timer and runs the full teardown |
| `SeedNode.SeedNodeMain.OnHiddenServicePublished` | seednode/src/main/java/bisq/seednode/SeedNodeMain.java:168-176 | the restart schedule is started unless prevented by configuration, and a one-shot timer arming the watchdog is added 60 seconds later |
| `SeedNode.SeedNodeMain.RunArmConnectionLossCheck` | seednode/src/main/java/bisq/seednode/SeedNodeMain.java:175 | when the 60 seconds are over the watchdog is armed, with the same guards as `setupConnectionLossCheck` |
| `SeedNode.SeedNodeMain.HandleUncaughtException` | seednode/src/main/java/bisq/seednode/SeedNodeMain.java:93-99 | an out-of-memory error or an explicit shutdown request runs the full teardown; anything else changes nothing |

## Left out

- Dependency wiring and process plumbing: `main`, `doExecute`, `checkMemory`, `addCapabilities`, `applyInjector` and the injector lookups; their values (configuration, roster, own address, loss count, UTC hour) are parameters.
- The startup cleanup of the Tor directory (lines 117-124): it is file I/O through `TorSetup`, which is not part of this model; the cookie is a map from key to boolean that starts with the value handed to the constructor.
- The empty P2P listener callbacks and `seedNode.startApplication()`: they do nothing this model could state.
- Superclass behaviour: `super.startShutDownInterval`, `super.gracefulShutDown`, `shutDown(this)` and the superclass's no-argument `gracefulShutDown()` are not part of this model. The first three are recorded as events; the no-argument form, used by the checkpoint and resync handlers, is taken to reach this class's `gracefulShutDown`.
- Real time and threads: the UTC hour is a parameter, the clock advances only through `Advance`, and which due timer runs next is chosen by the caller.
- Schedule.RoundedHour: computes `Math.round(24d / size * index)` exactly as round-half-up of `24 * index / size`; the double-precision product can differ from it only at exact ties for large fleets.
- Roster.Less: compares characters by code point, while Java's `String.compareTo` compares UTF-16 code units; the two orders differ only for characters outside the Basic Multilingual Plane, which host names and ports do not contain.
- `NodeAddress` is not part of this model: an address is represented by its full address `host:port`, taking `NodeAddress.equals` to mean same host and same port. Since a port contains no `:`, splitting at the last colon makes host and port one-to-one with the full address, so `==` on strings is the `equals` that `List.indexOf` uses.
- An own address that is not yet known (`getAddress()` returning null) is modelled by passing an address that is not in the roster; both give rank -1.
- Logging.
