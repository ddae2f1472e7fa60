/**
 * The readiness flag of concurrency/additional_synchronization_primitives/example1.go.
 *
 * `Worker` holds a boolean `ready` behind a read/write mutex: `setReady` sets it
 * under the write lock, `CheckReady` reads it under the read lock. The lock is
 * not modelled; only the flag and its transitions are.
 */
module Readiness {

  class Worker {
    var ready: bool

    /** A zero-valued `Worker{}`: not ready. */
    constructor ()
      ensures !ready
    {
      ready := false;
    }

    /** `setReady`: the flag is true afterwards, whatever it was, so calling it again changes nothing. */
    method SetReady()
      modifies this
      ensures ready
    {
      ready := true;
    }

    /** `CheckReady`: returns the flag and changes nothing. */
    method CheckReady() returns (r: bool)
      ensures r == ready
    {
      r := ready;
    }
  }

  /** The two operations a client can issue on a `Worker`. */
  datatype Op = SetReadyOp | CheckReadyOp

  /**
   * The values that the `CheckReady` calls of `ops` return, in order, when the
   * flag starts as `ready`.
   */
  function Observe(ready: bool, ops: seq<Op>): (obs: seq<bool>)
    decreases |ops|
  {
    if ops == [] then []
    else if ops[0] == SetReadyOp then Observe(true, ops[1..])
    else [ready] + Observe(ready, ops[1..])
  }

  /** The number of `CheckReady` calls in `ops`. */
  function Checks(ops: seq<Op>): nat
  {
    if ops == [] then 0
    else (if ops[0] == CheckReadyOp then 1 else 0) + Checks(ops[1..])
  }

  /** One observation per `CheckReady` call. */
  lemma {:induction false} ObserveLength(ready: bool, ops: seq<Op>)
    ensures |Observe(ready, ops)| == Checks(ops)
    decreases |ops|
  {
    if ops != [] {
      ObserveLength(if ops[0] == SetReadyOp then true else ready, ops[1..]);
    }
  }

  /** Once a check has seen `true`, every later check sees `true`: the flag is never cleared. */
  lemma {:induction false} ObserveMonotone(ready: bool, ops: seq<Op>)
    ensures forall i, j :: 0 <= i < j < |Observe(ready, ops)| && Observe(ready, ops)[i] ==> Observe(ready, ops)[j]
    decreases |ops|
  {
    if ops != [] {
      if ops[0] == SetReadyOp {
        ObserveMonotone(true, ops[1..]);
      } else {
        ObserveMonotone(ready, ops[1..]);
        if ready {
          ObserveStaysTrue(ops[1..]);
        }
      }
    }
  }

  /** From a ready flag every check sees `true`. */
  lemma {:induction false} ObserveStaysTrue(ops: seq<Op>)
    ensures forall k :: 0 <= k < |Observe(true, ops)| ==> Observe(true, ops)[k]
  {
    if ops != [] {
      ObserveStaysTrue(ops[1..]);
    }
  }

  /** Before any `setReady`, a fresh worker's checks all see `false`. */
  lemma {:induction false} ObserveBeforeSet(ops: seq<Op>)
    requires forall k :: 0 <= k < |ops| ==> ops[k] == CheckReadyOp
    ensures forall k :: 0 <= k < |Observe(false, ops)| ==> !Observe(false, ops)[k]
  {
    if ops != [] {
      ObserveBeforeSet(ops[1..]);
    }
  }

  /** `setReady` twice gives the same later observations as `setReady` once. */
  lemma SetReadyIdempotent(ready: bool, ops: seq<Op>)
    ensures Observe(ready, [SetReadyOp, SetReadyOp] + ops) == Observe(ready, [SetReadyOp] + ops)
  {
    assert ([SetReadyOp, SetReadyOp] + ops)[1..] == [SetReadyOp] + ops;
    assert ([SetReadyOp] + ops)[1..] == ops;
  }

  /** Runs `ops` on a fresh `Worker` and returns what its `CheckReady` calls returned. */
  method Run(ops: seq<Op>) returns (observed: seq<bool>)
    ensures observed == Observe(false, ops)
  {
    var w := new Worker();
    observed := [];
    var i := 0;
    while i < |ops|
      invariant 0 <= i <= |ops|
      invariant observed + Observe(w.ready, ops[i..]) == Observe(false, ops)
    {
      assert ops[i..][1..] == ops[i + 1..];
      if ops[i] == SetReadyOp {
        w.SetReady();
      } else {
        var r := w.CheckReady();
        observed := observed + [r];
      }
      i := i + 1;
    }
    assert ops[i..] == [];
  }

  /** A check, `setReady`, then another check: the first sees `false`, the second `true`. */
  method ReadyScenario() returns (before: bool, after: bool)
    ensures !before && after
  {
    var w := new Worker();
    before := w.CheckReady();
    w.SetReady();
    after := w.CheckReady();
  }
}
