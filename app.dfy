/**
  The application state machine of src/main.cpp.

  The firmware keeps its state in three static globals (the current state,
  the first-entry flag and the INIT timer counter).  The value `Machine`
  gathers them; the functions `Entered`, `Ticked` and `Serviced` say what
  `app_set_state`, `app_timer_callback` and `app_service` do to that value,
  and the class `StateMachine` holds the globals as fields and performs the
  same steps in place, each method proved to agree with its function.

  The two external facts a service pass depends on are inputs: whether the
  software timer fired while it was polled, and what `WiFi.isConnected()`
  reports.  The calls to `WiFi.begin` and the log lines are recorded as
  `Event`s.
*/
module App {
  import opened AppTypes

  /** Period of the state machine's software timer, in milliseconds. */
  const APP_TIMER_TIMEOUT_MS: nat := 5
  /** How long INIT waits for the network before giving up, in milliseconds. */
  const APP_INIT_TIMEOUT_MS: nat := 15000

  /** The label logged for a state; `code` is the integer held by the C enum,
      and every value other than those of IDLE and INIT gets the NULL label. */
  function StateName(code: int): (name: string)
    ensures name == "APPS_IDLE" <==> code == Ordinal(Idle)
    ensures name == "APPS_INIT" <==> code == Ordinal(Init)
    ensures name == "APPS_NULL" <==> code != Ordinal(Idle) && code != Ordinal(Init)
  {
    if code == 0 then "APPS_IDLE"
    else if code == 1 then "APPS_INIT"
    else "APPS_NULL"
  }

  /** The state machine's globals: `s_app_state`, `s_app_first_state_entry`
      and `s_app_timer_counters.init_count`. */
  datatype Machine = Machine(state: AppState, firstEntry: bool, initCount: Uint16)

  /** The values the globals are statically initialised with. */
  const BOOT: Machine := Machine(Null, true, 0)

  /** Which of the two outcomes the INIT exit logs. */
  datatype Outcome = Connected | ConnectionFailed

  /** What a step does outside the globals. */
  datatype Event =
    | WifiBegin                         // "Connecting to SSID" notice, then WiFi.begin
    | OutcomeLogged(outcome: Outcome)   // "Connected to ..." or "Connection failed to ..."
    | StateLogged(name: string)         // "State set: <label>"

  /** The state after one step together with the events it produced, in order. */
  datatype Step = Step(next: Machine, events: seq<Event>)

  /** `app_set_state`: any state may be entered from any state; entering
      raises the first-entry flag and touches nothing else. */
  function Entered(m: Machine, s: AppState): (r: Machine)
    ensures r.state == s && r.firstEntry
    ensures r.initCount == m.initCount
  {
    m.(state := s, firstEntry := true)
  }

  /** The event `app_set_state(s)` logs. */
  function StateSetEvent(s: AppState): (e: Event)
    ensures e.StateLogged?
    ensures e.name == "APPS_IDLE" <==> s == Idle
    ensures e.name == "APPS_INIT" <==> s == Init
    ensures e.name == "APPS_NULL" <==> s == Null
  {
    StateLogged(StateName(Ordinal(s)))
  }

  /** `app_timer_callback`: in INIT the counter grows by the timer period,
      with the wrap-around of a `uint16_t`; in any other state nothing changes. */
  function Ticked(m: Machine): (r: Machine)
    ensures r.state == m.state && r.firstEntry == m.firstEntry
    ensures m.state == Init && m.initCount + APP_TIMER_TIMEOUT_MS < UINT16_MODULUS ==>
              r.initCount == m.initCount + APP_TIMER_TIMEOUT_MS
    ensures m.state == Init && m.initCount + APP_TIMER_TIMEOUT_MS >= UINT16_MODULUS ==>
              r.initCount == m.initCount + APP_TIMER_TIMEOUT_MS - UINT16_MODULUS
    ensures m.state != Init ==> r == m
  {
    if m.state == Init then
      m.(initCount := (m.initCount + APP_TIMER_TIMEOUT_MS) % UINT16_MODULUS)
    else
      m
  }

  /** The code under `case APPS_INIT:`, which is also reached by falling
      through from `case APPS_IDLE:`.  On first entry it clears the flag,
      resets the counter and starts the connection; then, when the network
      is up or the counter has reached the timeout, it logs the outcome and
      enters IDLE. */
  function InitCase(m: Machine, connected: bool): (p: Step)
    ensures m.firstEntry <==> WifiBegin in p.events
    ensures p.next.state == (if connected || (!m.firstEntry && m.initCount >= APP_INIT_TIMEOUT_MS) then Idle else m.state)
  {
    var entered := if m.firstEntry then m.(firstEntry := false, initCount := 0) else m;
    var begun := if m.firstEntry then [WifiBegin] else [];
    if connected || entered.initCount >= APP_INIT_TIMEOUT_MS then
      Step(Entered(entered, Idle),
           begun + [OutcomeLogged(if connected then Connected else ConnectionFailed), StateSetEvent(Idle)])
    else
      Step(entered, begun)
  }

  /** `app_service`: poll the timer (its callback runs when it fires), then
      dispatch on the state.  IDLE has no `break`, so after its own
      first-entry check it runs INIT's code; NULL does nothing. */
  function Serviced(m: Machine, fired: bool, connected: bool): (p: Step)
    ensures p.next.state == Null <==> m.state == Null
    ensures p.next.state != m.state ==> m.state == Init && p.next.state == Idle
  {
    var t := if fired then Ticked(m) else m;
    match t.state
    case Idle => InitCase(t.(firstEntry := false), connected)
    case Init => InitCase(t, connected)
    case Null => Step(t, [])
  }

  /** The globals of src/main.cpp as fields, with the log and the network
      calls recorded in `trace`. */
  class StateMachine {
    var state: AppState
    var firstEntry: bool
    var initCount: Uint16
    ghost var trace: seq<Event>

    /** The value of the globals. */
    function Snapshot(): (m: Machine)
      reads this
      ensures m.state == state && m.firstEntry == firstEntry && m.initCount == initCount
    {
      Machine(state, firstEntry, initCount)
    }

    /** Static initialisation: NULL, first entry pending, counter zero. */
    constructor ()
      ensures Snapshot() == BOOT && trace == []
    {
      state := Null;
      firstEntry := true;
      initCount := 0;
      trace := [];
    }

    /** `app_set_state`. */
    method SetState(s: AppState)
      modifies this
      ensures Snapshot() == Entered(old(Snapshot()), s)
      ensures trace == old(trace) + [StateSetEvent(s)]
    {
      firstEntry := true;
      state := s;
      var name := StateName(Ordinal(state));
      trace := trace + [StateLogged(name)];
    }

    /** `app_timer_callback`; the result is always true, so the timer
        keeps rescheduling it. */
    method TimerCallback() returns (reschedule: bool)
      modifies this
      ensures Snapshot() == Ticked(old(Snapshot()))
      ensures trace == old(trace)
      ensures reschedule
    {
      if state == Init {
        initCount := (initCount + APP_TIMER_TIMEOUT_MS) % UINT16_MODULUS;
      }
      reschedule := true;
    }

    /** `app_service`, with `fired` telling whether the timer's callback
        ran during this poll and `connected` what `WiFi.isConnected()`
        reports. */
    method Service(fired: bool, connected: bool)
      modifies this
      ensures Snapshot() == Serviced(old(Snapshot()), fired, connected).next
      ensures trace == old(trace) + Serviced(old(Snapshot()), fired, connected).events
    {
      if fired {
        var reschedule := TimerCallback();
      }
      var current := state;
      // case APPS_IDLE: (falls through into case APPS_INIT)
      if current == Idle {
        if firstEntry {
          firstEntry := false;
        }
      }
      // case APPS_INIT:
      if current == Idle || current == Init {
        if firstEntry {
          firstEntry := false;
          initCount := 0;
          trace := trace + [WifiBegin];
        }
        if connected || initCount >= APP_INIT_TIMEOUT_MS {
          trace := trace + [OutcomeLogged(if connected then Connected else ConnectionFailed)];
          SetState(Idle);
        }
      }
      // case APPS_NULL: default: nothing
    }
  }
}
