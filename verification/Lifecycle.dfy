/** Stopping one engine under a deadline: pause, ask, wait, and abort and pause again when anything goes wrong. */
module Lifecycle {
  import opened Basics

  /**
   How the engine and the database behave. Times are instants; an absent time means never. `pause` and
   `repause` are the writes of the paused status, before the request and after a failure.
   */
  datatype World = World(
    pauseAt: Option<int>, pauseOk: bool, accepts: bool, ackAt: Option<int>, ackOk: bool,
    exitAt: Option<int>, exitOk: bool, repauseOk: bool, recoveryOk: bool)

  predicate By(at: Option<int>, deadline: int) {
    at.Some? && at.value <= deadline
  }

  /** The first phase succeeds: paused, asked and acknowledged before the deadline. */
  predicate Acknowledges(w: World, deadline: int) {
    By(w.pauseAt, deadline) && w.pauseOk && w.accepts && By(w.ackAt, deadline) && w.ackOk
  }

  /** The engine stops of its own accord before the deadline. */
  predicate StopsCleanly(w: World, deadline: int) {
    Acknowledges(w, deadline) && By(w.exitAt, deadline) && w.exitOk
  }

  class EngineStop {
    var shutdownFlag: bool
    var requests: nat
    var finished: bool
    var aborted: bool
    var pauseSaved: bool
    var repauseTried: bool
    var recovered: bool

    constructor ()
      ensures !shutdownFlag && requests == 0 && !finished && !aborted && !pauseSaved && !repauseTried && !recovered
    {
      shutdownFlag, requests, finished, aborted, pauseSaved, repauseTried, recovered := false, 0, false, false, false, false, false;
    }

    /** Submissions are barred at once; the rest is bounded by the deadline. */
    method Begin(w: World, now: int, limit: nat) returns (deadline: int, ok: bool)
      modifies this
      ensures shutdownFlag && deadline == now + limit && ok == Acknowledges(w, deadline)
      ensures requests == old(requests) + (if By(w.pauseAt, deadline) && w.pauseOk && w.accepts then 1 else 0)
      ensures pauseSaved == (old(pauseSaved) || (By(w.pauseAt, deadline) && w.pauseOk))
      ensures finished == old(finished) && aborted == old(aborted) && repauseTried == old(repauseTried) && recovered == old(recovered)
    {
      shutdownFlag := true;
      deadline := now + limit;
      if !By(w.pauseAt, deadline) || !w.pauseOk {
        return deadline, false;
      }
      pauseSaved := true;
      if !w.accepts {
        return deadline, false;
      }
      requests := requests + 1;
      ok := By(w.ackAt, deadline) && w.ackOk;
    }

    method Finish(w: World, deadline: int, begun: bool, recover: bool) returns (ok: bool)
      modifies this
      ensures finished && requests == old(requests) && shutdownFlag == old(shutdownFlag)
      ensures ok == (begun && By(w.exitAt, deadline) && w.exitOk && (recover ==> w.recoveryOk))
      ensures recovered == (old(recovered) || (recover && begun && By(w.exitAt, deadline) && w.exitOk && w.recoveryOk))
      ensures aborted == (old(aborted) || !begun || !By(w.exitAt, deadline))
      ensures repauseTried == (old(repauseTried) || !(begun && By(w.exitAt, deadline) && w.exitOk))
      ensures pauseSaved == (old(pauseSaved) || (!(begun && By(w.exitAt, deadline) && w.exitOk) && w.repauseOk))
    {
      var clean := begun;
      if !begun {
        aborted := true;
      } else if By(w.exitAt, deadline) {
        clean := w.exitOk;
      } else {
        aborted := true;
        clean := false;
      }
      finished := true;
      if !clean {
        repauseTried := true;
        pauseSaved := pauseSaved || w.repauseOk;
        return false;
      }
      if recover {
        recovered := recovered || w.recoveryOk;
        return w.recoveryOk;
      }
      return true;
    }

    /**
     However the engine behaves it is asked at most once and has finished at the end. The stop succeeds exactly
     when it acknowledges and exits by the deadline (and the recovery is committed); it is aborted exactly
     when it has not; and after any failure of its own the pause has been written or tried again.
     */
    method StopEngine(w: World, now: int, limit: nat, recover: bool) returns (ok: bool)
      requires !aborted && !repauseTried && !recovered && !pauseSaved
      modifies this
      ensures finished && shutdownFlag && requests <= old(requests) + 1
      ensures ok <==> StopsCleanly(w, now + limit) && (recover ==> w.recoveryOk)
      ensures aborted <==> !(Acknowledges(w, now + limit) && By(w.exitAt, now + limit))
      ensures repauseTried <==> !StopsCleanly(w, now + limit)
      ensures pauseSaved || (repauseTried && !w.repauseOk)
      ensures recovered ==> ok && recover
    {
      var deadline, begun := Begin(w, now, limit);
      ok := Finish(w, deadline, begun, recover);
    }
  }
}
