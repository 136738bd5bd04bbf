/** The battery state set run by the generic engine: five states, a per-tick reading, the decision
    table each state uses to pick the next state, and the notification each state sends on entry.
    The program's five handler objects in a map of boxed trait objects become a dispatch on the
    closed `State` type. */
module Battery {
  import opened Wrappers
  import opened Ints
  import Settings
  import FsmEngine

  datatype State = Charging | Discharging | Full | Low | Critical

  /** The native notification object. It is only passed along to the notifier, never inspected. */
  datatype NotifyHandle = NotifyHandle(address: nat)

  const NULL_HANDLE := NotifyHandle(0)

  /** The reading one tick works on: the level in percent, the raw status token, the thresholds,
      the optional payload of each state, and the notifier handle. */
  datatype Data = Data(
    currentLevel: U32,
    status: string,
    lowLevel: U32,
    criticalLevel: U32,
    critical: Option<Settings.Notification>,
    low: Option<Settings.Notification>,
    full: Option<Settings.Notification>,
    charging: Option<Settings.Notification>,
    discharging: Option<Settings.Notification>,
    notification: NotifyHandle)

  /** One call of the notifier's `send`, with the handle and the payload it was given. */
  datatype Sent = Sent(handle: NotifyHandle, notification: Settings.Notification)

  /** The `next_state` of each of the five handlers. Its contract gives the same table read the
      other way round, by target: which readings lead into each state, from which states. */
  function NextState(s: State, d: Data): (r: Option<State>)
    ensures r != Some(s)
    ensures r == Some(Charging) <==> d.status == "Charging" && s != Charging
    ensures r == Some(Full) <==> d.status == "Full" && (s == Charging || s == Discharging)
    ensures r == Some(Discharging) <==>
      d.status == "Discharging" &&
      (s == Full || (s == Charging && d.currentLevel > d.criticalLevel && d.currentLevel > d.lowLevel))
    ensures r == Some(Critical) <==>
      d.status == "Discharging" && d.currentLevel <= d.criticalLevel && (s == Charging || s == Discharging || s == Low)
    ensures r == Some(Low) <==>
      d.status == "Discharging" && d.criticalLevel < d.currentLevel <= d.lowLevel && (s == Charging || s == Discharging)
  {
    match s
    case Charging =>
      if d.status == "Full" then Some(Full)
      else if d.status == "Discharging" && d.currentLevel <= d.criticalLevel then Some(Critical)
      else if d.status == "Discharging" && d.currentLevel <= d.lowLevel then Some(Low)
      else if d.status == "Discharging" then Some(Discharging)
      else None
    case Discharging =>
      if d.status == "Charging" then Some(Charging)
      else if d.status == "Full" then Some(Full)
      else if d.status == "Discharging" && d.currentLevel <= d.criticalLevel then Some(Critical)
      else if d.status == "Discharging" && d.currentLevel <= d.lowLevel then Some(Low)
      else None
    case Full =>
      if d.status == "Charging" then Some(Charging)
      else if d.status == "Discharging" then Some(Discharging)
      else None
    case Low =>
      if d.status == "Charging" then Some(Charging)
      else if d.status == "Discharging" && d.currentLevel <= d.criticalLevel then Some(Critical)
      else None
    case Critical =>
      if d.status == "Charging" then Some(Charging) else None
  }

  /** The payload configured for a state. */
  function Payload(s: State, d: Data): Option<Settings.Notification> {
    match s
    case Charging => d.charging
    case Discharging => d.discharging
    case Full => d.full
    case Low => d.low
    case Critical => d.critical
  }

  /** The `enter` of each handler: send the state's payload through the reading's handle when one
      is configured, send nothing otherwise. */
  function Enter(s: State, d: Data): (r: seq<Sent>)
    ensures |r| <= 1
    ensures r == [] <==> Payload(s, d).None?
    ensures r != [] ==> r[0].handle == d.notification && Some(r[0].notification) == Payload(s, d)
  {
    match Payload(s, d)
    case None => []
    case Some(n) => [Sent(d.notification, n)]
  }

  /** The `exit` of each handler does nothing: it sends no notification. */
  function Exit(s: State, d: Data): (r: seq<Sent>)
    ensures r == []
  {
    []
  }

  function HandlerOf(s: State): FsmEngine.Handler<State, Data, Sent> {
    FsmEngine.Handler(d => Enter(s, d), d => NextState(s, d), d => Exit(s, d))
  }

  /** The handler map `create_fsm` builds: one handler per state, each keyed by its own state. */
  function States(): (m: map<State, FsmEngine.Handler<State, Data, Sent>>)
    ensures m.Keys == {Charging, Discharging, Full, Low, Critical}
    ensures forall s: State :: s in m && m[s] == HandlerOf(s)
  {
    var m := map[Full := HandlerOf(Full), Charging := HandlerOf(Charging), Discharging := HandlerOf(Discharging),
                 Low := HandlerOf(Low), Critical := HandlerOf(Critical)];
    assert forall s: State :: s in m && m[s] == HandlerOf(s) by {
      forall s: State ensures s in m && m[s] == HandlerOf(s) {
        assert s.Charging? || s.Discharging? || s.Full? || s.Low? || s.Critical?;
      }
    }
    m
  }

  /** The machine runs the battery handlers. */
  ghost predicate Assembled(fsm: FsmEngine.Fsm<State, Data, Sent>)
    reads fsm
  {
    fsm.states == States()
  }

  /** Registers the five handlers one by one and starts in Discharging. */
  method CreateFsm() returns (fsm: FsmEngine.Fsm<State, Data, Sent>)
    ensures fresh(fsm)
    ensures Assembled(fsm) && forall s: State :: s in fsm.states
    ensures fsm.currentState == Discharging && fsm.trace == []
  {
    var states: map<State, FsmEngine.Handler<State, Data, Sent>> := map[];
    states := states[Full := HandlerOf(Full)];
    states := states[Charging := HandlerOf(Charging)];
    states := states[Discharging := HandlerOf(Discharging)];
    states := states[Low := HandlerOf(Low)];
    states := states[Critical := HandlerOf(Critical)];
    assert states == States();
    fsm := new FsmEngine.Fsm(Discharging, states);
  }

  /** The state after one tick on reading `d`. */
  function After(s: State, d: Data): State {
    match NextState(s, d)
    case None => s
    case Some(t) => t
  }

  /** What one tick on reading `d` sends: the exit hook's effects, then the enter hook's. */
  function Sends(s: State, d: Data): seq<Sent> {
    match NextState(s, d)
    case None => []
    case Some(t) => Exit(s, d) + Enter(t, d)
  }

  /** A tick sends at most one notification, only when the state changes, and then exactly the
      new state's payload. */
  lemma AtMostOneNotification(s: State, d: Data)
    ensures |Sends(s, d)| <= 1
    ensures Sends(s, d) != [] ==> After(s, d) != s && Sends(s, d) == Enter(After(s, d), d)
    ensures After(s, d) == s ==> Sends(s, d) == []
  {
  }

  /** After a transition, the same reading again moves the machine a second time exactly when the
      first hop was Full to Discharging at a level at or below one of the thresholds; in every
      other case the repeated reading changes nothing and sends nothing. */
  lemma RepeatedReadingAfterTransition(s: State, d: Data)
    requires NextState(s, d).Some?
    ensures NextState(After(s, d), d).Some? <==>
      s == Full && d.status == "Discharging" && (d.currentLevel <= d.criticalLevel || d.currentLevel <= d.lowLevel)
    ensures NextState(After(s, d), d).None? ==> Sends(After(s, d), d) == []
  {
  }

  /** Whatever the starting state, a reading repeated tick after tick stops moving the machine
      after at most two ticks. */
  lemma SettlesWithinTwoTicks(s: State, d: Data)
    ensures NextState(After(After(s, d), d), d).None?
  {
    if NextState(s, d).Some? {
      RepeatedReadingAfterTransition(s, d);
      if NextState(After(s, d), d).Some? {
        assert After(After(s, d), d) in {Low, Critical};
      }
    }
  }

  /** Scenario A: from the start, level 40 while discharging (above both
      thresholds) changes nothing; level 25 enters Low and sends its payload once. */
  method ScenarioA(d: Data)
    requires d.status == "Discharging" && d.lowLevel == 30 && d.criticalLevel == 10 && d.currentLevel == 40
  {
    var fsm := CreateFsm();
    var sent := fsm.Shift(d);
    assert fsm.currentState == Discharging && sent == [];
    sent := fsm.Shift(d.(currentLevel := 25));
    assert fsm.currentState == Low && sent == Enter(Low, d);
  }

  /** Scenario B: in Low, level 5 enters Critical and sends its payload once; the same reading
      again changes nothing and sends nothing. */
  method ScenarioB(d: Data)
    requires d.status == "Discharging" && d.lowLevel == 30 && d.criticalLevel == 10 && d.currentLevel == 5
  {
    var fsm := CreateFsm();
    var sent := fsm.Shift(d.(currentLevel := 25));
    assert fsm.currentState == Low;
    sent := fsm.Shift(d);
    assert fsm.currentState == Critical && sent == Enter(Critical, d);
    sent := fsm.Shift(d);
    assert fsm.currentState == Critical && sent == [];
  }

  /** Scenario C: in Critical, charging at level 6 enters Charging and sends its payload once. */
  method ScenarioC(d: Data)
    requires d.status == "Charging" && d.lowLevel == 30 && d.criticalLevel == 10 && d.currentLevel == 6
  {
    var fsm := CreateFsm();
    var sent := fsm.Shift(d.(status := "Discharging"));
    assert fsm.currentState == Critical;
    sent := fsm.Shift(d);
    assert fsm.currentState == Charging && sent == Enter(Charging, d);
  }

  /** Scenario D: in Charging, a full battery enters Full and sends its payload once; the same
      reading again sends nothing. */
  method ScenarioD(d: Data)
    requires d.status == "Full" && d.currentLevel == 100
  {
    var fsm := CreateFsm();
    var sent := fsm.Shift(d.(status := "Charging"));
    assert fsm.currentState == Charging;
    sent := fsm.Shift(d);
    assert fsm.currentState == Full && sent == Enter(Full, d);
    sent := fsm.Shift(d);
    assert fsm.currentState == Full && sent == [];
  }
}
