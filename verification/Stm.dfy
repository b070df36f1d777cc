/**
  stm.c: the engine that drives a table of states with the selector's events.  A state with no
  callback for an event makes the engine abort, so whoever calls it must know that there is one.
*/
module Stm {
  import opened Options

  /** The arrival callbacks due when these states are entered in this order. */
  function Callbacks<S>(entered: seq<S>, arrives: S -> bool): seq<S> {
    if entered == [] then []
    else Callbacks(entered[..|entered| - 1], arrives) + Callback(entered[|entered| - 1], arrives)
  }

  function Callback<S>(s: S, arrives: S -> bool): seq<S> { if arrives(s) then [s] else [] }

  class StateMachine<S(==)> {
    const initial: S
    /** Whether a state has an on_arrival callback; no state of either table has an on_departure. */
    const arrives: S -> bool
    /** NULL until the first event. */
    var current: Option<S>
    /** The states entered, and the arrival callbacks run, in order. */
    ghost var entered: seq<S>
    ghost var arrived: seq<S>

    /** stm_state. */
    function State(): S
      reads this
    {
      if current.None? then initial else current.value
    }

    ghost predicate Entered()
      reads this
    {
      && (current.None? <==> entered == [])
      && (current.Some? ==> entered[0] == initial && entered[|entered| - 1] == current.value)
      && forall i :: 0 < i < |entered| ==> entered[i - 1] != entered[i]
    }

    /** Every state entered has had its arrival callback exactly once, and a jump to the state one
        is in enters nothing. */
    ghost predicate Valid()
      reads this
    {
      Entered() && arrived == Callbacks(entered, arrives)
    }

    /** The callback of the state just entered is still to run. */
    ghost predicate Due(due: bool)
      reads this
    {
      && Entered() && current.Some? && (due ==> arrives(current.value))
      && (if due then arrived + [current.value] else arrived) == Callbacks(entered, arrives)
    }

    /** stm_init. */
    constructor (initial: S, arrives: S -> bool)
      ensures Valid() && current.None? && this.initial == initial && this.arrives == arrives
    {
      this.initial, this.arrives, current, entered, arrived := initial, arrives, None, [], [];
    }

    method Enter(s: S) returns (due: bool)
      requires Valid() && if current.None? then s == initial else s != current.value
      modifies `current, `entered
      ensures Due(due) && current == Some(s) && entered == old(entered) + [s] && due == arrives(s)
    {
      current := Some(s);
      entered := entered + [s];
      assert entered[..|entered| - 1] == old(entered);
      due := arrives(s);
    }

    /** handle_first. */
    method HandleFirst() returns (due: bool)
      requires Valid()
      modifies `current, `entered
      ensures Due(due) && current == Some(old(State())) && due == (old(current).None? && arrives(initial))
      ensures entered == if old(current).None? then [initial] else old(entered)
    {
      due := false;
      if current.None? {
        due := Enter(initial);
      }
    }

    /** jump. */
    method Jump(next: S) returns (due: bool)
      requires Valid() && current.Some?
      modifies `current, `entered
      ensures Due(due) && current == Some(next) && due == (next != old(State()) && arrives(next))
      ensures entered == if next == old(State()) then old(entered) else old(entered) + [next]
    {
      due := false;
      if current.value != next {
        due := Enter(next);
      }
    }

    /** The callback runs. */
    ghost method Arrived()
      requires Due(true)
      modifies `arrived
      ensures Valid()
    {
      arrived := arrived + [current.value];
    }
  }
}
