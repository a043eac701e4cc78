// How the parallel workers of the scheduler happen to interleave: a list of which worker acts next.

module Workers {

  ghost predicate Within(sched: seq<nat>, n: nat) {
    forall k :: 0 <= k < |sched| ==> sched[k] < n
  }

  /** How often worker `i` acts. */
  function Turns(sched: seq<nat>, i: nat): nat {
    if sched == [] then 0 else (if sched[0] == i then 1 else 0) + Turns(sched[1..], i)
  }
}
