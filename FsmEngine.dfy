/** A generic finite-state machine: a current key and a fixed map from each key to the handler of
    that state. `Shift` asks the current handler for the next key and, on a transition, runs the
    old handler's exit hook, then the new handler's enter hook, then moves to the new key. */
module FsmEngine {
  import opened Wrappers

  /** The three hooks of one state. `enter` and `exit` act only through the effects they emit
      (in the battery program, the notifications they send), so each returns the sequence of
      effects it performs; `nextState` is a query that answers `None` for "stay". */
  datatype Handler<K, !D, O> = Handler(enter: D -> seq<O>, nextState: D -> Option<K>, exit: D -> seq<O>)

  /** One hook invocation, with the key of the handler it was made on and the context it was given. */
  datatype Call<K, D> =
    | NextStateCall(state: K, data: D)
    | ExitCall(state: K, data: D)
    | EnterCall(state: K, data: D)

  class Fsm<K(==), D, O> {
    var currentState: K
    var states: map<K, Handler<K, D, O>>
    /** Every hook call made on this machine, oldest first. */
    ghost var trace: seq<Call<K, D>>

    /** The machine starts at `initState` with the handler map exactly as given; no hook runs. */
    constructor (initState: K, states: map<K, Handler<K, D, O>>)
      ensures currentState == initState && this.states == states
      ensures trace == []
    {
      currentState := initState;
      this.states := states;
      trace := [];
    }

    /** Leave the current state and enter `newState`, in that order. A missing handler for either
        key is a panic in the program, so both keys must be present. */
    method SetState(newState: K, data: D) returns (effects: seq<O>)
      requires currentState in states && newState in states
      modifies this`currentState, this`trace
      ensures states == old(states) && currentState == newState
      ensures effects == states[old(currentState)].exit(data) + states[newState].enter(data)
      ensures trace == old(trace) + [ExitCall(old(currentState), data), EnterCall(newState, data)]
    {
      var exited := states[currentState].exit(data);
      trace := trace + [ExitCall(currentState, data)];
      var entered := states[newState].enter(data);
      trace := trace + [EnterCall(newState, data)];
      currentState := newState;
      effects := exited + entered;
    }

    /** One tick: at most one transition. With no next state nothing but the query happens;
        with a next state `s` the exit hook of the current state, then the enter hook of `s`,
        run on the same context, and `s` becomes current. The handler map never changes. */
    method Shift(data: D) returns (effects: seq<O>)
      requires currentState in states
      requires var next := states[currentState].nextState(data); next.Some? ==> next.value in states
      modifies this`currentState, this`trace
      ensures states == old(states)
      ensures var next := states[old(currentState)].nextState(data);
        match next
        case None =>
          && currentState == old(currentState)
          && effects == []
          && trace == old(trace) + [NextStateCall(old(currentState), data)]
        case Some(s) =>
          && currentState == s
          && effects == states[old(currentState)].exit(data) + states[s].enter(data)
          && trace == old(trace) + [NextStateCall(old(currentState), data), ExitCall(old(currentState), data), EnterCall(s, data)]
    {
      var next := states[currentState].nextState(data);
      trace := trace + [NextStateCall(currentState, data)];
      effects := [];
      if next.Some? {
        effects := SetState(next.value, data);
      }
    }
  }
}
