# ESP32 application state machine, in Dafny

This project models the application state machine of a small ESP32 Arduino
firmware template (`src/main.cpp`). The firmware keeps three static globals:
the current state (IDLE, INIT or NULL), a first-entry flag and a `uint16_t`
INIT timer counter. A software timer fires every 5 ms. Its callback advances
the counter while the machine is in INIT. `loop()` calls `app_service` over
and over. `app_service` polls the timer and then dispatches on the state. In
INIT it starts a WiFi connection on first entry. It leaves for IDLE once the
network is up or 15000 ms have been counted.

Files:

- `app_types.dfy` (module `AppTypes`): the `AppState` enumeration with the
  integer values the C enum stores, and the `uint16_t` range.
- `app.dfy` (module `App`): the constants, the state name lookup, and the
  globals as one value `Machine`. The functions `Entered`, `Ticked` and
  `Serviced` give the effect of `app_set_state`, `app_timer_callback` and
  `app_service` on that value. The class `StateMachine` holds the globals
  as fields. Its methods `SetState`, `TimerCallback` and `Service` update
  those fields in place, in the order the C code does. Each method is proved
  to agree with its function.
- `app_properties.dfy` (module `AppProperties`): `Run`, which is `loop()`
  applied to a sequence of inputs, and the lemmas about single passes and
  whole runs.

The environment is passed in as inputs. Each service pass takes two facts:
whether the timer fired during this poll (at most once per pass), and what
`WiFi.isConnected()` reports. Calls to `WiFi.begin`, the outcome log line
and the "State set" log line are recorded as `Event`s. In the class they go
into a ghost `trace`; in the functions they go into `Step.events`.

The switch in `app_service` has no `break` after `case APPS_IDLE:`, and the
model keeps that fall-through. After IDLE's own first-entry check, control
runs INIT's code. Flattening the two cases into independent handlers would
look harmless, but it would change what the firmware does, and the model
follows the code as written. IDLE consumes its own first
entry, so INIT's `WiFi.begin` block never runs from IDLE. INIT's exit check
still runs, though. While the network is up, or while the counter stays at
15000, every IDLE pass logs the outcome again and calls
`app_set_state(APPS_IDLE)` again (`IdlePass`, `TimedOutIdleReentersEveryPass`).

## Model

| member | source | states |
|---|---|---|
| `AppTypes.Ordinal` | include/app.h:18-23 | the C enum values are IDLE 0, INIT 1 and NULL 2, each value belonging to exactly one state |
| `App.StateName` | src/main.cpp:147-157 | the label is "APPS_IDLE" exactly for IDLE's value, "APPS_INIT" exactly for INIT's value, and "APPS_NULL" for every other value, including values outside the enum |
| `AppProperties.StateNamesDistinct` | src/main.cpp:147-157 | the three states get three different labels, so a logged label identifies its state |
| `App.Entered` | src/main.cpp:136-139 | after a transition the state is the requested one and the first-entry flag is raised, whatever the previous state; the counter is untouched |
| `App.StateSetEvent` | src/main.cpp:140-141 | the transition logs a state label, and that label is "APPS_IDLE", "APPS_INIT" or "APPS_NULL" exactly when the new state is IDLE, INIT or NULL |
| `App.Ticked` | src/main.cpp:162-177 | in INIT the counter grows by exactly 5, modulo 2^16; in IDLE and NULL nothing changes |
| `App.InitCase` | src/main.cpp:109-125 | `WiFi.begin` is called exactly when the flag was set on entry; the pass ends in IDLE exactly when the network is up or the counter, after a non-first pass, has reached 15000 |
| `App.Serviced` | src/main.cpp:94-131 | a pass leaves NULL neither in nor out, and the only state change it can make is INIT to IDLE |
| `App.StateMachine.constructor` | src/main.cpp:27-35 | the globals start as NULL, first entry pending, counter 0, with nothing logged |
| `App.StateMachine.SetState` | src/main.cpp:136-142 | the fields become `Entered` of the old fields, and the state's label is appended to the trace |
| `App.StateMachine.TimerCallback` | src/main.cpp:162-177 | the fields become `Ticked` of the old fields, nothing is logged, and the result is true, so the timer reschedules |
| `App.StateMachine.Service` | src/main.cpp:94-131 | the fields and the trace change exactly as `Serviced` says for the given timer firing and connection status |
| `AppProperties.Started` | src/main.cpp:81 | after setup's `app_set_state(APPS_INIT)` from the initial globals, the machine is in INIT with first entry pending and counter 0, which is well formed, and the only event is the logged "APPS_INIT" label |
| `AppProperties.Run` | src/main.cpp:84-89 | `loop()` repeated over a sequence of passes: no run enters or leaves NULL, a run ending in INIT started in INIT, and a run ending in IDLE started in IDLE or INIT (its other properties are the run lemmas below) |
| `AppProperties.FirstInitPass` | src/main.cpp:97-116 | the first INIT pass clears the flag, calls `WiFi.begin` once and sets the counter to 0, so a firing earlier in the same pass is lost; if already connected it goes straight on to IDLE with the success outcome |
| `AppProperties.LaterInitPass` | src/main.cpp:117-125 | a later INIT pass never calls `WiFi.begin`; it logs the outcome and enters IDLE exactly when connected or the counter is at least 15000, and otherwise changes nothing but the counter |
| `AppProperties.NullPassIsNoOp` | src/main.cpp:127-129 | in NULL a pass leaves state, flag and counter as they were and produces no event, whether or not the timer fired |
| `AppProperties.IdlePass` | src/main.cpp:103-125 | in IDLE the flag is cleared and the connection is never restarted, but while connected or at the timeout each pass logs the outcome and re-enters IDLE, raising the flag again |
| `AppProperties.AtMostOneTransitionPerPass` | src/main.cpp:100-130 | every pass makes at most one transition and at most one `WiFi.begin` call; a transition always lands in IDLE with the flag raised, and without one the state is unchanged |
| `AppProperties.PassPreservesWellformed` | src/main.cpp:113-117 | a pass keeps the counter a multiple of 5 and at most 15000, and strictly below 15000 while INIT is waiting; in INIT a firing adds exactly 5 with no wrap-around |
| `AppProperties.RunAppend` | src/main.cpp:84-89 | two consecutive runs of the loop are one run over the concatenated inputs |
| `AppProperties.NullRunIsNoOp` | src/main.cpp:127-129 | any number of passes in NULL leave the machine unchanged and produce no event |
| `AppProperties.RunPreservesWellformed` | src/main.cpp:113-117 | well-formedness holds after any run |
| `AppProperties.CounterNeverWraps` | include/app.h:44 | from start-up, whatever happens, the counter stays at most 15000, and each INIT firing adds exactly 5, so the `uint16_t` never wraps |
| `AppProperties.WaitingInInit` | src/main.cpp:117-125 | while waiting in INIT without a connection, the counter equals 5 times the number of firings and nothing is logged until the timeout |
| `AppProperties.TimeoutPass` | src/main.cpp:117-123 | the pass whose firing brings the counter to 15000 while disconnected logs the failure and enters IDLE |
| `AppProperties.FewerThan3000FiringsStayInInit` | src/main.cpp:20-22 | from start-up with no connection, after the first pass, fewer than 3000 firings keep the machine in INIT with only the `WiFi.begin` recorded |
| `AppProperties.The3000thFiringTimesOut` | src/main.cpp:20-22 | the pass that brings the 3000th firing logs "Connection failed" and enters IDLE with the counter at 15000; from power-up the whole event stream is the INIT label, `WiFi.begin`, the failure and the IDLE label |
| `AppProperties.ConnectedBeforeTimeout` | src/main.cpp:117-123 | a connection reported before the timeout ends the wait on that pass with the success outcome |
| `AppProperties.IdleRunStaysIdle` | src/main.cpp:103-125 | IDLE is never left, its counter never changes and the connection is never restarted |
| `AppProperties.TimedOutIdleReentersEveryPass` | src/main.cpp:103-125 | after a timeout, every IDLE pass calls `app_set_state(APPS_IDLE)` again |
| `AppProperties.NoBeginAfterFirstPass` | src/main.cpp:110-116 | once INIT's first pass is over, no later pass calls `WiFi.begin` |
| `AppProperties.WifiBeginOnce` | src/main.cpp:110-116 | from start-up, `WiFi.begin` is called exactly once however long the loop runs |

## Left out

- `setup()` (src/main.cpp:65-82): serial port and logging bring-up, the wait for the serial port, timer registration and `WiFi.mode` are platform I/O. Only its last step, `app_set_state(APPS_INIT)`, is modelled (`Started`).
- The `arduino-timer` library (`timer_create_default`, `every`, `tick`) is not part of this model. A firing is a boolean input to each pass. This assumes, as that library does for one task, that the callback runs at most once per `tick()`.
- The ESP32 WiFi driver is not part of this model. `WiFi.begin` is a recorded event. `WiFi.isConnected()` is one boolean per pass, because the source asks it up to four times in one pass (src/main.cpp:117-122) and the model takes all of those answers to be the same. `WiFi.localIP()` is not modelled, so the IP address in the success line is not recorded.
- The text of the log lines is not modelled. Only which outcome was logged and which state label was logged are recorded. The "Connecting to SSID" notice is folded into the `WifiBegin` event that follows it.
- The fixed SSID and password strings (src/main.cpp:39-40) are not modelled.
- `AppFlags`, `AppCounters` and their globals (include/app.h:28-54, src/main.cpp:29, 33) are placeholders with no behaviour, so they are left out.
- `include/version.h` holds only compile-time constants, so it is left out.
