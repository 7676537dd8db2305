/**
  What the state machine of src/main.cpp guarantees, stated over single
  service passes and over runs of the main loop.
*/
module AppProperties {
  import opened AppTypes
  import opened App

  /** What the environment contributes to one pass of `loop()`: whether the
      timer fired while `app_service` polled it, and the connection status. */
  datatype Input = Input(fired: bool, connected: bool)

  /** `loop()` calling `app_service` once per input, in order, collecting
      every event. */
  function Run(m: Machine, inputs: seq<Input>): (r: Step)
    ensures r.next.state == Null <==> m.state == Null
    ensures r.next.state == Idle ==> m.state == Idle || m.state == Init
    ensures r.next.state == Init ==> m.state == Init
    decreases |inputs|
  {
    if inputs == [] then Step(m, [])
    else
      var p := Serviced(m, inputs[0].fired, inputs[0].connected);
      var rest := Run(p.next, inputs[1..]);
      Step(rest.next, p.events + rest.events)
  }

  /** How many of the passes see the timer fire. */
  function Firings(inputs: seq<Input>): nat
  {
    if inputs == [] then 0
    else (if inputs[0].fired then 1 else 0) + Firings(inputs[1..])
  }

  /** The network never reports a connection during these passes. */
  predicate Disconnected(inputs: seq<Input>)
  {
    forall i :: 0 <= i < |inputs| ==> !inputs[i].connected
  }

  /** How many state transitions (`app_set_state` calls) the events record. */
  function Transitions(events: seq<Event>): (n: nat)
    ensures n <= |events|
  {
    if events == [] then 0
    else (if events[0].StateLogged? then 1 else 0) + Transitions(events[1..])
  }

  /** How many `WiFi.begin` calls the events record. */
  function Begins(events: seq<Event>): (n: nat)
    ensures n <= |events|
  {
    if events == [] then 0
    else (if events[0] == WifiBegin then 1 else 0) + Begins(events[1..])
  }

  /** The globals as the program can find them: the counter is a whole
      number of timer periods no larger than the timeout, and strictly below
      it while INIT is being waited out. */
  predicate Wellformed(m: Machine)
  {
    && m.initCount % APP_TIMER_TIMEOUT_MS == 0
    && m.initCount <= APP_INIT_TIMEOUT_MS
    && (m.state == Init && !m.firstEntry ==> m.initCount < APP_INIT_TIMEOUT_MS)
  }

  /** What `setup()` does to the state machine: `app_set_state(APPS_INIT)`
      on the globals' initial values, which logs the INIT label. */
  function Started(): (s: Step)
    ensures s == Step(Machine(Init, true, 0), [StateLogged("APPS_INIT")])
    ensures Wellformed(s.next)
  {
    Step(Entered(BOOT, Init), [StateSetEvent(Init)])
  }

  // ---------------------------------------------------------------------
  // The state name resolver

  /** The three states have three different labels, so a logged label names
      the state it was logged for. */
  lemma StateNamesDistinct(a: AppState, b: AppState)
    ensures StateName(Ordinal(a)) == StateName(Ordinal(b)) <==> a == b
    ensures StateName(Ordinal(Idle)) == "APPS_IDLE"
    ensures StateName(Ordinal(Init)) == "APPS_INIT"
    ensures StateName(Ordinal(Null)) == "APPS_NULL"
  {
  }

  // ---------------------------------------------------------------------
  // Single service passes

  /** The first pass after INIT is entered clears the flag, starts the
      connection exactly once, and restarts the counter from zero, so a
      firing earlier in the same pass is lost.  If the network is already up
      the pass goes straight on to IDLE. */
  lemma FirstInitPass(m: Machine, fired: bool, connected: bool)
    requires m.state == Init && m.firstEntry
    ensures var p := Serviced(m, fired, connected);
      if connected then
        p == Step(Machine(Idle, true, 0), [WifiBegin, OutcomeLogged(Connected), StateLogged("APPS_IDLE")])
      else
        p == Step(Machine(Init, false, 0), [WifiBegin])
  {
  }

  /** A later pass in INIT never starts the connection again.  It leaves for
      IDLE, logging the outcome, exactly when the network is up or the counter
      (after this pass's firing, if any) has reached the timeout. */
  lemma LaterInitPass(m: Machine, fired: bool, connected: bool)
    requires m.state == Init && !m.firstEntry
    ensures var count := if fired then Ticked(m).initCount else m.initCount;
      var p := Serviced(m, fired, connected);
      if connected || count >= APP_INIT_TIMEOUT_MS then
        p == Step(Machine(Idle, true, count),
                  [OutcomeLogged(if connected then Connected else ConnectionFailed), StateLogged("APPS_IDLE")])
      else
        p == Step(Machine(Init, false, count), [])
  {
  }

  /** In NULL a pass changes nothing and does nothing: the timer callback
      ignores NULL and so does the dispatch. */
  lemma NullPassIsNoOp(m: Machine, fired: bool, connected: bool)
    requires m.state == Null
    ensures Serviced(m, fired, connected) == Step(m, [])
  {
  }

  /** In IDLE the fall-through into INIT's code has two effects: the first
      entry is consumed before INIT's first-entry block can see it, so the
      connection is never restarted; but INIT's exit check still runs, so
      while the network is up or the counter is at the timeout every pass
      logs the outcome again and re-enters IDLE, raising the flag again. */
  lemma IdlePass(m: Machine, fired: bool, connected: bool)
    requires m.state == Idle
    ensures var p := Serviced(m, fired, connected);
      if connected || m.initCount >= APP_INIT_TIMEOUT_MS then
        p == Step(Machine(Idle, true, m.initCount),
                  [OutcomeLogged(if connected then Connected else ConnectionFailed), StateLogged("APPS_IDLE")])
      else
        p == Step(Machine(Idle, false, m.initCount), [])
  {
  }

  /** Whatever the state, one pass calls `app_set_state` at most once and
      `WiFi.begin` at most once, and only ever enters IDLE. */
  lemma AtMostOneTransitionPerPass(m: Machine, fired: bool, connected: bool)
    ensures var p := Serviced(m, fired, connected);
      Transitions(p.events) <= 1 && Begins(p.events) <= 1
      && (Transitions(p.events) == 1 ==> p.next.state == Idle && p.next.firstEntry)
      && (Transitions(p.events) == 0 ==> p.next.state == m.state)
  {
    match m.state
    case Null =>
      NullPassIsNoOp(m, fired, connected);
    case Idle =>
      IdlePass(m, fired, connected);
    case Init =>
      if m.firstEntry {
        FirstInitPass(m, fired, connected);
      } else {
        LaterInitPass(m, fired, connected);
      }
  }

  /** A pass keeps the globals well formed; in particular the counter, which
      only grows in INIT below the timeout, never reaches the point where a
      `uint16_t` would wrap. */
  lemma PassPreservesWellformed(m: Machine, fired: bool, connected: bool)
    requires Wellformed(m)
    ensures Wellformed(Serviced(m, fired, connected).next)
    ensures m.state == Init ==> Ticked(m).initCount == m.initCount + APP_TIMER_TIMEOUT_MS
  {
  }

  // ---------------------------------------------------------------------
  // Runs of the main loop

  /** Running two batches of passes one after the other is one run. */
  lemma {:induction false} RunAppend(m: Machine, a: seq<Input>, b: seq<Input>)
    ensures Run(m, a + b) == Step(Run(Run(m, a).next, b).next, Run(m, a).events + Run(Run(m, a).next, b).events)
    decreases |a|
  {
    if a == [] {
      assert a + b == b;
    } else {
      var ab := a + b;
      assert ab[0] == a[0];
      assert ab[1..] == a[1..] + b;
      var p := Serviced(m, a[0].fired, a[0].connected);
      var mid := Run(p.next, a[1..]);
      RunAppend(p.next, a[1..], b);
      assert Run(m, ab) == Step(Run(p.next, a[1..] + b).next, p.events + Run(p.next, a[1..] + b).events);
      assert Run(m, a) == Step(mid.next, p.events + mid.events);
      assert p.events + (mid.events + Run(mid.next, b).events) == (p.events + mid.events) + Run(mid.next, b).events;
    }
  }

  /** Once in NULL, the machine stays exactly as it is for any number of
      passes, until something outside the loop calls `app_set_state`. */
  lemma {:induction false} NullRunIsNoOp(m: Machine, inputs: seq<Input>)
    requires m.state == Null
    ensures Run(m, inputs) == Step(m, [])
    decreases |inputs|
  {
    if inputs != [] {
      NullPassIsNoOp(m, inputs[0].fired, inputs[0].connected);
      NullRunIsNoOp(m, inputs[1..]);
    }
  }

  /** Every state reachable by running the loop is well formed. */
  lemma {:induction false} RunPreservesWellformed(m: Machine, inputs: seq<Input>)
    requires Wellformed(m)
    ensures Wellformed(Run(m, inputs).next)
    decreases |inputs|
  {
    if inputs != [] {
      PassPreservesWellformed(m, inputs[0].fired, inputs[0].connected);
      var p := Serviced(m, inputs[0].fired, inputs[0].connected);
      RunPreservesWellformed(p.next, inputs[1..]);
    }
  }

  /** From the start-up state, however the loop runs, the INIT counter is a
      multiple of the timer period and never passes the timeout, so the
      `uint16_t` never wraps: each firing in INIT adds exactly 5 ms. */
  lemma {:induction false} CounterNeverWraps(inputs: seq<Input>)
    ensures var m := Run(Started().next, inputs).next;
      Wellformed(m)
      && m.initCount <= APP_INIT_TIMEOUT_MS
      && (m.state == Init ==> Ticked(m).initCount == m.initCount + APP_TIMER_TIMEOUT_MS)
  {
    var m := Run(Started().next, inputs).next;
    RunPreservesWellformed(Started().next, inputs);
    PassPreservesWellformed(m, true, false);
  }

  /** While waiting in INIT without a connection, the counter is the timer
      period times the number of firings, and nothing is logged until the
      timeout is reached. */
  lemma {:induction false} WaitingInInit(m: Machine, inputs: seq<Input>)
    requires m.state == Init && !m.firstEntry
    requires Disconnected(inputs)
    requires m.initCount + APP_TIMER_TIMEOUT_MS * Firings(inputs) < APP_INIT_TIMEOUT_MS
    ensures Run(m, inputs) == Step(Machine(Init, false, m.initCount + APP_TIMER_TIMEOUT_MS * Firings(inputs)), [])
    decreases |inputs|
  {
    if inputs != [] {
      var x := inputs[0];
      assert !x.connected;
      LaterInitPass(m, x.fired, x.connected);
      var p := Serviced(m, x.fired, x.connected);
      assert Disconnected(inputs[1..]) by {
        forall i | 0 <= i < |inputs[1..]| ensures !inputs[1..][i].connected {
          assert inputs[1..][i] == inputs[i + 1];
        }
      }
      WaitingInInit(p.next, inputs[1..]);
    }
  }

  /** The pass whose firing brings the counter to the timeout, with the
      network still down, logs the failure and enters IDLE. */
  lemma TimeoutPass(m: Machine, inputs: seq<Input>)
    requires m.state == Init && !m.firstEntry
    requires Disconnected(inputs)
    requires m.initCount + APP_TIMER_TIMEOUT_MS * Firings(inputs) == APP_INIT_TIMEOUT_MS - APP_TIMER_TIMEOUT_MS
    ensures Run(m, inputs + [Input(true, false)])
         == Step(Machine(Idle, true, APP_INIT_TIMEOUT_MS), [OutcomeLogged(ConnectionFailed), StateLogged("APPS_IDLE")])
  {
    RunAppend(m, inputs, [Input(true, false)]);
    WaitingInInit(m, inputs);
    var w := Machine(Init, false, APP_INIT_TIMEOUT_MS - APP_TIMER_TIMEOUT_MS);
    LaterInitPass(w, true, false);
    assert Run(w, [Input(true, false)]).events == Serviced(w, true, false).events + [];
  }

  /** End to end, with the network never connecting: after start-up and the
      first pass, which starts the connection, fewer than 3000 firings keep
      the machine in INIT with nothing more logged. */
  lemma FewerThan3000FiringsStayInInit(first: Input, inputs: seq<Input>)
    requires !first.connected && Disconnected(inputs)
    requires Firings(inputs) < 3000
    ensures Run(Started().next, [first] + inputs)
         == Step(Machine(Init, false, 5 * Firings(inputs)), [WifiBegin])
  {
    RunAppend(Started().next, [first], inputs);
    FirstInitPass(Started().next, first.fired, first.connected);
    assert Run(Started().next, [first]) == Step(Machine(Init, false, 0), [WifiBegin]) by {
      assert [first][1..] == [];
    }
    WaitingInInit(Machine(Init, false, 0), inputs);
  }

  /** ... and the pass that delivers the 3000th firing ends the wait: the
      failure is logged and IDLE is entered with the counter at 15000 ms.
      Counting setup's own log line, the whole event stream from power-up is
      the INIT label, `WiFi.begin`, the failure and the IDLE label. */
  lemma The3000thFiringTimesOut(first: Input, inputs: seq<Input>)
    requires !first.connected && Disconnected(inputs)
    requires Firings(inputs) == 2999
    ensures Run(Started().next, [first] + inputs + [Input(true, false)])
         == Step(Machine(Idle, true, 15000),
                 [WifiBegin, OutcomeLogged(ConnectionFailed), StateLogged("APPS_IDLE")])
    ensures Started().events + Run(Started().next, [first] + inputs + [Input(true, false)]).events
         == [StateLogged("APPS_INIT"), WifiBegin, OutcomeLogged(ConnectionFailed), StateLogged("APPS_IDLE")]
  {
    RunAppend(Started().next, [first] + inputs, [Input(true, false)]);
    FewerThan3000FiringsStayInInit(first, inputs);
    var w := Machine(Init, false, 14995);
    LaterInitPass(w, true, false);
    assert Run(w, [Input(true, false)]).events == Serviced(w, true, false).events + [];
  }

  /** A connection reported while INIT is still waiting ends the wait on
      that pass with the success outcome. */
  lemma ConnectedBeforeTimeout(m: Machine, inputs: seq<Input>, fired: bool)
    requires m.state == Init && !m.firstEntry
    requires Disconnected(inputs)
    requires m.initCount + APP_TIMER_TIMEOUT_MS * Firings(inputs) < APP_INIT_TIMEOUT_MS
    ensures var count := m.initCount + APP_TIMER_TIMEOUT_MS * (Firings(inputs) + if fired then 1 else 0);
      Run(m, inputs + [Input(fired, true)])
        == Step(Machine(Idle, true, count), [OutcomeLogged(Connected), StateLogged("APPS_IDLE")])
  {
    RunAppend(m, inputs, [Input(fired, true)]);
    WaitingInInit(m, inputs);
    var w := Machine(Init, false, m.initCount + APP_TIMER_TIMEOUT_MS * Firings(inputs));
    LaterInitPass(w, fired, true);
    assert Run(w, [Input(fired, true)]).events == Serviced(w, fired, true).events + [];
  }

  /** IDLE is never left, its counter never changes and the connection is
      never restarted. */
  lemma {:induction false} IdleRunStaysIdle(m: Machine, inputs: seq<Input>)
    requires m.state == Idle
    ensures Run(m, inputs).next.state == Idle
    ensures Run(m, inputs).next.initCount == m.initCount
    ensures Begins(Run(m, inputs).events) == 0
    decreases |inputs|
  {
    if inputs != [] {
      IdlePass(m, inputs[0].fired, inputs[0].connected);
      var p := Serviced(m, inputs[0].fired, inputs[0].connected);
      IdleRunStaysIdle(p.next, inputs[1..]);
      BeginsAppend(p.events, Run(p.next, inputs[1..]).events);
    }
  }

  /** Consequence of the fall-through: after a timeout, IDLE calls
      `app_set_state(APPS_IDLE)` again on every single pass. */
  lemma {:induction false} TimedOutIdleReentersEveryPass(m: Machine, inputs: seq<Input>)
    requires m.state == Idle && m.initCount >= APP_INIT_TIMEOUT_MS
    ensures Transitions(Run(m, inputs).events) == |inputs|
    decreases |inputs|
  {
    if inputs != [] {
      IdlePass(m, inputs[0].fired, inputs[0].connected);
      var p := Serviced(m, inputs[0].fired, inputs[0].connected);
      TimedOutIdleReentersEveryPass(p.next, inputs[1..]);
      TransitionsAppend(p.events, Run(p.next, inputs[1..]).events);
    }
  }

  /** From start-up, `WiFi.begin` is called exactly once however long the
      loop runs and whatever the timer and the network do. */
  lemma WifiBeginOnce(first: Input, inputs: seq<Input>)
    ensures Begins(Run(Started().next, [first] + inputs).events) == 1
  {
    RunAppend(Started().next, [first], inputs);
    FirstInitPass(Started().next, first.fired, first.connected);
    var p := Serviced(Started().next, first.fired, first.connected);
    assert Run(Started().next, [first]) == Step(p.next, p.events) by {
      assert [first][1..] == [];
    }
    NoBeginAfterFirstPass(p.next, inputs);
    BeginsAppend(p.events, Run(p.next, inputs).events);
  }

  /** Once INIT's first-entry pass is behind it, a run never calls
      `WiFi.begin`: later INIT passes skip it, IDLE consumes its own first
      entry, and INIT is never entered again. */
  lemma {:induction false} NoBeginAfterFirstPass(m: Machine, inputs: seq<Input>)
    requires m.state == Idle || (m.state == Init && !m.firstEntry)
    ensures Begins(Run(m, inputs).events) == 0
    decreases |inputs|
  {
    if inputs != [] {
      var x := inputs[0];
      if m.state == Idle {
        IdlePass(m, x.fired, x.connected);
      } else {
        LaterInitPass(m, x.fired, x.connected);
      }
      var p := Serviced(m, x.fired, x.connected);
      NoBeginAfterFirstPass(p.next, inputs[1..]);
      BeginsAppend(p.events, Run(p.next, inputs[1..]).events);
    }
  }

  lemma {:induction false} BeginsAppend(a: seq<Event>, b: seq<Event>)
    ensures Begins(a + b) == Begins(a) + Begins(b)
    decreases |a|
  {
    if a == [] {
      assert a + b == b;
    } else {
      assert (a + b)[1..] == a[1..] + b;
      BeginsAppend(a[1..], b);
    }
  }

  lemma {:induction false} TransitionsAppend(a: seq<Event>, b: seq<Event>)
    ensures Transitions(a + b) == Transitions(a) + Transitions(b)
    decreases |a|
  {
    if a == [] {
      assert a + b == b;
    } else {
      assert (a + b)[1..] == a[1..] + b;
      TransitionsAppend(a[1..], b);
    }
  }
}
