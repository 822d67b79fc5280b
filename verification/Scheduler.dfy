/**
 Round-robin scheduling (kern/sched.c) and the switch itself (env_run in kern/env.c).
 The scan also steps on the slot just past the array of environments, whose memory
 may hold anything; it is kept here as slot NENV.
 */
module Scheduler {
  import opened Wrappers
  import opened Common

  /** Astray: slot NENV is taken for an environment. */
  datatype Choice = Run(env: nat) | Halt | Astray

  /** The slot that the scan looks at after k steps. */
  function Visited(cur: Option<nat>, k: nat): nat {
    ((if cur.Some? then cur.value + 1 else 0) + k) % (NENV + 1)
  }

  predicate WellFormed(status: seq<Status>, cur: Option<nat>) {
    |status| == NENV + 1 && (cur.Some? ==> cur.value < NENV)
  }

  /** No slot among the first k of the scan is runnable. */
  ghost predicate NoneBefore(status: seq<Status>, cur: Option<nat>, k: nat)
    requires WellFormed(status, cur)
  {
    forall j :: 0 <= j < k ==> status[Visited(cur, j)] != Runnable
  }

  /** The scan's choice, if it finds one. */
  ghost predicate Found(status: seq<Status>, cur: Option<nat>, x: nat)
    requires WellFormed(status, cur)
  {
    exists k :: 0 <= k < 1024 && x == Visited(cur, k) && status[x] == Runnable && NoneBefore(status, cur, k)
  }

  // -------------------------------------------------------- circular distance

  /** How many places after cur an environment comes: 1 for the next one, NENV for cur itself. */
  function Distance(cur: nat, x: nat): nat
    requires cur < NENV && x < NENV
  {
    if x > cur then x - cur else x + NENV - cur
  }

  /** The step at which the scan reaches x; slot NENV lies between the last environment and the first. */
  function StepOf(cur: nat, x: nat): nat
    requires cur < NENV && x < NENV
  {
    if x > cur then x - cur - 1 else x + NENV - cur
  }

  lemma StepVisits(cur: nat, x: nat)
    requires cur < NENV && x < NENV
    ensures Visited(Some(cur), StepOf(cur, x)) == x && (x != cur <==> StepOf(cur, x) < 1024)
  {
  }

  lemma VisitIsStep(cur: nat, k: nat)
    requires cur < NENV && k < 1024
    ensures var x := Visited(Some(cur), k);
      if k == NENV - cur - 1 then x == NENV else x < NENV && x != cur && StepOf(cur, x) == k
  {
  }

  lemma DistanceOrder(cur: nat, x: nat, y: nat)
    requires cur < NENV && x < NENV && y < NENV
    ensures StepOf(cur, x) < StepOf(cur, y) <==> Distance(cur, x) < Distance(cur, y)
  {
  }

  /** Moving on to y brings x nearer by exactly the way to y. */
  lemma DistanceShrinks(cur: nat, y: nat, x: nat)
    requires cur < NENV && x < NENV && y < NENV && Distance(cur, y) < Distance(cur, x)
    ensures Distance(y, x) == Distance(cur, x) - Distance(cur, y)
  {
  }

  // ------------------------------------------------------- what the scan picks

  /** No other runnable environment comes before x in circular order after cur. */
  ghost predicate First(status: seq<Status>, cur: nat, x: nat)
    requires WellFormed(status, Some(cur)) && x < NENV
  {
    forall y :: 0 <= y < NENV && y != cur && status[y] == Runnable ==> Distance(cur, x) <= Distance(cur, y)
  }

  /**
   The scan picks an environment if and only if that is the first runnable one in
   circular order after cur and slot NENV does not get in its way.
   */
  lemma FoundIsFirst(status: seq<Status>, cur: nat, x: nat)
    requires WellFormed(status, Some(cur)) && x < NENV
    ensures Found(status, Some(cur), x) <==>
      x != cur && status[x] == Runnable && First(status, cur, x) && (status[NENV] != Runnable || x > cur)
  {
    StepVisits(cur, x);
    if Found(status, Some(cur), x) {
      var k :| 0 <= k < 1024 && x == Visited(Some(cur), k) && status[x] == Runnable && NoneBefore(status, Some(cur), k);
      VisitIsStep(cur, k);
      VisitIsStep(cur, NENV - cur - 1);
      forall y | 0 <= y < NENV && y != cur && status[y] == Runnable ensures Distance(cur, x) <= Distance(cur, y) {
        StepVisits(cur, y);
        DistanceOrder(cur, y, x);
      }
    }
    if x != cur && status[x] == Runnable && First(status, cur, x) && (status[NENV] != Runnable || x > cur) {
      NoneBeforeFirst(status, cur, x);
    }
  }

  lemma NoneBeforeFirst(status: seq<Status>, cur: nat, x: nat)
    requires WellFormed(status, Some(cur)) && x < NENV && x != cur && (status[NENV] != Runnable || x > cur)
    requires First(status, cur, x)
    ensures NoneBefore(status, Some(cur), StepOf(cur, x))
  {
  }

  /** The scan runs off the array exactly when slot NENV looks runnable and no environment above cur is. */
  lemma OffTheEnd(status: seq<Status>, cur: nat)
    requires WellFormed(status, Some(cur))
    ensures Found(status, Some(cur), NENV) <==>
      status[NENV] == Runnable && forall y :: cur < y < NENV ==> status[y] != Runnable
  {
    var k := NENV - cur - 1;
    VisitIsStep(cur, k);
    if status[NENV] == Runnable && forall y :: cur < y < NENV ==> status[y] != Runnable {
      forall j | 0 <= j < k ensures status[Visited(Some(cur), j)] != Runnable {
        assert Visited(Some(cur), j) == cur + 1 + j;
      }
      assert NoneBefore(status, Some(cur), k);
    }
    if Found(status, Some(cur), NENV) {
      var j :| 0 <= j < 1024 && NENV == Visited(Some(cur), j) && NoneBefore(status, Some(cur), j);
      VisitIsStep(cur, j);
      forall y | cur < y < NENV ensures status[y] != Runnable {
        assert Visited(Some(cur), y - cur - 1) == y;
      }
    }
  }

  // ----------------------------------------------- what sched_yield shall choose

  /** No environment but cur is runnable. */
  ghost predicate NoOther(status: seq<Status>, cur: Option<nat>)
    requires WellFormed(status, cur)
  {
    forall y :: 0 <= y < NENV && cur != Some(y) ==> status[y] != Runnable
  }

  /** Slot NENV looks runnable, and no environment on the way to it is. */
  ghost predicate LeadsAstray(status: seq<Status>, cur: Option<nat>)
    requires WellFormed(status, cur)
  {
    cur.Some? && status[NENV] == Runnable && forall y :: cur.value < y < NENV ==> status[y] != Runnable
  }

  /** x is runnable and first in circular order after cur, or the lowest such if there is no cur. */
  ghost predicate Turn(status: seq<Status>, cur: Option<nat>, x: nat)
    requires WellFormed(status, cur)
  {
    && x < NENV && cur != Some(x) && status[x] == Runnable
    && (cur.Some? ==> First(status, cur.value, x))
    && (cur.None? ==> forall y :: 0 <= y < x ==> status[y] != Runnable)
  }

  /** x comes next: it is its turn, or no other environment is runnable and x still runs. */
  ghost predicate Chooses(status: seq<Status>, cur: Option<nat>, x: nat)
    requires WellFormed(status, cur)
  {
    && !LeadsAstray(status, cur)
    && (Turn(status, cur, x) || (NoOther(status, cur) && cur == Some(x) && status[x] == Running))
  }

  /** The processor goes from cur to e: only a switch is counted, and only a running cur becomes runnable. */
  ghost predicate Switched(status: seq<Status>, runs: seq<nat>, cur: Option<nat>, e: nat,
                           status1: seq<Status>, runs1: seq<nat>)
    requires WellFormed(status, cur) && e < NENV && |runs| == |status1| == NENV + 1
  {
    && runs1 == (if cur == Some(e) then runs else runs[e := runs[e] + 1])
    && status1[e] == (if cur == Some(e) then status[e] else Running)
    && (forall x :: 0 <= x <= NENV && x != e ==>
          status1[x] == if cur == Some(x) && status[x] == Running then Runnable else status[x])
  }

  // ------------------------------------------------------------- the scheduler

  /** The environments as the scheduler sees them on one processor. */
  class Processor {
    var status: seq<Status>
    var runs: seq<nat>
    var curenv: Option<nat>

    ghost predicate Valid()
      reads this
    {
      WellFormed(status, curenv) && |runs| == NENV + 1
    }

    constructor (initial: seq<Status>)
      requires |initial| == NENV + 1
      ensures Valid() && status == initial && curenv == None
    {
      status, curenv := initial, None;
      runs := seq(NENV + 1, i => 0);
    }

    /** env_run: the status of the old environment is given up only if it was still running. */
    method EnvRun(e: nat)
      requires Valid() && e < NENV
      modifies this
      ensures Valid() && curenv == Some(e)
      ensures Switched(old(status), old(runs), old(curenv), e, status, runs)
    {
      if curenv != Some(e) {
        if curenv.Some? && status[curenv.value] == Running {
          status := status[curenv.value := Runnable];
        }
        curenv := Some(e);
        status := status[e := Running];
        runs := runs[e := runs[e] + 1];
      }
    }

    /** The scan of sched_yield. */
    method Scan() returns (r: Option<nat>)
      requires Valid()
      ensures r.Some? ==> Found(status, curenv, r.value) && r.value <= NENV
      ensures r.None? ==> NoneBefore(status, curenv, 1024)
    {
      hide Visited;
      VisitStarts(curenv);
      var idle := if curenv.Some? then curenv.value + 1 else 0;
      var i := 0;
      while i < 1024
        invariant i <= 1024 && idle == Visited(curenv, i) && NoneBefore(status, curenv, i)
      {
        VisitNext(curenv, i);
        if status[idle] == Runnable {
          return Some(idle);
        }
        idle := if idle >= NENV then 0 else idle + 1;
        i := i + 1;
      }
      return None;
    }

    /** sched_yield */
    method SchedYield() returns (r: Choice)
      requires Valid()
      modifies this
      ensures Valid()
      ensures r.Astray? <==> LeadsAstray(old(status), old(curenv))
      ensures forall x: nat :: r == Run(x) <==> Chooses(old(status), old(curenv), x)
      ensures r.Halt? <==>
        && !LeadsAstray(old(status), old(curenv)) && NoOther(old(status), old(curenv))
        && (old(curenv) == None || old(status)[old(curenv).value] != Running)
      ensures r.Run? ==> curenv == Some(r.env) && Switched(old(status), old(runs), old(curenv), r.env, status, runs)
      ensures !r.Run? ==> status == old(status) && runs == old(runs)
      ensures r.Halt? ==> curenv == None
      ensures r.Astray? ==> curenv == old(curenv)
    {
      hide Found, NoneBefore, First, Switched, LeadsAstray, NoOther, Turn;
      var found := Scan();
      if found.Some? {
        FoundIsChosen(status, curenv, found.value);
        if found.value == NENV {
          return Astray;
        }
        EnvRun(found.value);
        return Run(found.value);
      }
      NoneIsChosen(status, curenv);
      if curenv.Some? && status[curenv.value] == Running {
        EnvRun(curenv.value);
        return Run(curenv.value);
      }
      curenv := None;   // sched_halt
      return Halt;
    }
  }

  lemma VisitStarts(cur: Option<nat>)
    requires cur.Some? ==> cur.value < NENV
    ensures Visited(cur, 0) == if cur.Some? then cur.value + 1 else 0
  {
  }

  lemma VisitNext(cur: Option<nat>, k: nat)
    ensures Visited(cur, k) <= NENV
    ensures Visited(cur, k + 1) == if Visited(cur, k) >= NENV then 0 else Visited(cur, k) + 1
  {
  }

  /** The scan finds at most one slot; without a current environment it is the lowest runnable one. */
  lemma FoundOnce(status: seq<Status>, cur: Option<nat>, x: nat)
    requires WellFormed(status, cur) && Found(status, cur, x)
    ensures x <= NENV && status[x] == Runnable
    ensures forall y: nat :: Found(status, cur, y) ==> y == x
    ensures cur.None? ==> x < NENV && status[x] == Runnable && forall y :: 0 <= y < x ==> status[y] != Runnable
  {
    var k :| 0 <= k < 1024 && x == Visited(cur, k) && status[x] == Runnable && NoneBefore(status, cur, k);
    if cur.None? {
      forall y | 0 <= y < x ensures status[y] != Runnable {
        assert Visited(cur, y) == y;
      }
    }
    hide Visited;
    forall y: nat | Found(status, cur, y) ensures y == x {
      var j :| 0 <= j < 1024 && y == Visited(cur, j) && status[y] == Runnable && NoneBefore(status, cur, j);
      assert status[Visited(cur, j)] == Runnable && status[Visited(cur, k)] == Runnable;
    }
  }

  /** Off the way to slot NENV, the first runnable environment is the one that the scan finds. */
  lemma TurnIsFound(status: seq<Status>, cur: nat, x: nat)
    requires WellFormed(status, Some(cur)) && x < NENV && !LeadsAstray(status, Some(cur))
    ensures Turn(status, Some(cur), x) <==> Found(status, Some(cur), x)
  {
    hide Found;
    FoundIsFirst(status, cur, x);
  }

  /** A slot that the scan finds is the environment to choose, or slot NENV if the scan leads astray. */
  lemma FoundIsChosen(status: seq<Status>, cur: Option<nat>, x: nat)
    requires WellFormed(status, cur) && Found(status, cur, x)
    ensures x <= NENV && (x == NENV <==> LeadsAstray(status, cur)) && (x < NENV ==> !NoOther(status, cur))
    ensures forall y: nat :: Chooses(status, cur, y) <==> x == y && x < NENV
  {
    hide Found, NoneBefore, First;
    FoundOnce(status, cur, x);
    if cur.Some? {
      hide LeadsAstray, Turn;
      OffTheEnd(status, cur.value);
      assert LeadsAstray(status, cur) <==> Found(status, cur, NENV);
      if x < NENV {
        FoundIsFirst(status, cur.value, x);
        forall y: nat | y < NENV ensures Chooses(status, cur, y) <==> x == y {
          TurnIsFound(status, cur.value, y);
        }
      }
    }
  }

  /** When the scan finds nothing, only the current environment can be chosen. */
  lemma NoneIsChosen(status: seq<Status>, cur: Option<nat>)
    requires WellFormed(status, cur) && NoneBefore(status, cur, 1024)
    ensures !LeadsAstray(status, cur) && NoOther(status, cur)
    ensures forall y: nat :: Chooses(status, cur, y) <==> cur == Some(y) && status[y] == Running
  {
    hide NoneBefore;
    ScanCovers(status, cur);
  }

  lemma ScanCovers(status: seq<Status>, cur: Option<nat>)
    requires WellFormed(status, cur) && NoneBefore(status, cur, 1024)
    ensures cur.Some? ==> status[NENV] != Runnable
    ensures forall y :: 0 <= y < NENV && cur != Some(y) ==> status[y] != Runnable
  {
    if cur.Some? {
      VisitIsStep(cur.value, NENV - cur.value - 1);
    }
    forall y | 0 <= y < NENV && cur != Some(y) ensures status[y] != Runnable {
      if cur.Some? {
        StepVisits(cur.value, y);
        assert status[Visited(cur, StepOf(cur.value, y))] != Runnable;
      } else {
        assert Visited(cur, y) == y;
      }
    }
  }

  // ----------------------------------------------------------------- fairness

  /**
   Successive yields: at yield j the current environment is curs[j], the statuses are stats[j]
   and chosen[j] is chosen.  By the next yield it may have exited, which leaves no current one.
   */
  ghost predicate Yields(stats: seq<seq<Status>>, curs: seq<Option<nat>>, chosen: seq<nat>) {
    && |stats| == |curs| == |chosen|
    && (forall j :: 0 <= j < |stats| ==> WellFormed(stats[j], curs[j]) && Chooses(stats[j], curs[j], chosen[j]))
    && (forall j :: 1 <= j < |stats| ==> curs[j] == None || curs[j] == Some(chosen[j - 1]))
  }

  /** The yields from j up to i have not chosen x. */
  ghost predicate NotChosen(chosen: seq<nat>, x: nat, j: nat, i: nat) {
    i <= |chosen| && forall k :: j <= k < i ==> chosen[k] != x
  }

  lemma OneYield(status: seq<Status>, cur: nat, next: nat, x: nat)
    requires WellFormed(status, Some(cur)) && Chooses(status, Some(cur), next)
    requires x < NENV && status[x] == Runnable && x != cur
    ensures next < NENV && (next == x || (next != cur && Distance(next, x) < Distance(cur, x)))
  {
    assert !NoOther(status, Some(cur));
    if next != x {
      assert Distance(cur, next) <= Distance(cur, x) && Distance(cur, next) != Distance(cur, x);
      DistanceShrinks(cur, next, x);
    }
  }

  /**
   An environment that stays runnable until it is chosen is chosen within as many yields as
   it is places away, at most NENV - 1, if no current environment exits meanwhile.
   */
  lemma {:induction false} Fair(stats: seq<seq<Status>>, curs: seq<Option<nat>>, chosen: seq<nat>, x: nat, j: nat)
    requires Yields(stats, curs, chosen) && x < NENV && j < |stats| && curs[j].Some? && curs[j].value != x
    requires forall i :: j <= i < |stats| && NotChosen(chosen, x, j, i) ==> curs[i].Some? && stats[i][x] == Runnable
    requires j + Distance(curs[j].value, x) <= |stats|
    ensures Distance(curs[j].value, x) <= NENV - 1
    ensures exists i :: j <= i < j + Distance(curs[j].value, x) && chosen[i] == x
    decreases |stats| - j
  {
    hide Chooses;
    assert NotChosen(chosen, x, j, j);
    OneYield(stats[j], curs[j].value, chosen[j], x);
    if chosen[j] == x {
      assert j <= j < j + Distance(curs[j].value, x);
    } else {
      assert NotChosen(chosen, x, j, j + 1);
      forall i | j + 1 <= i < |stats| && NotChosen(chosen, x, j + 1, i)
        ensures curs[i].Some? && stats[i][x] == Runnable
      {
        assert NotChosen(chosen, x, j, i);
      }
      Fair(stats, curs, chosen, x, j + 1);
    }
  }

  /** Environments 0 and 1 take turns at forking the other one and exiting. */
  function Relay(j: nat): seq<Status> {
    seq(NENV + 1, x => if x == 2 || x == j % 2 then Runnable else Free)
  }

  /** Exits can starve an environment: 2 stays runnable through any number of yields and is never chosen. */
  lemma Starves(n: nat) returns (stats: seq<seq<Status>>, curs: seq<Option<nat>>, chosen: seq<nat>)
    ensures Yields(stats, curs, chosen) && |stats| == n
    ensures forall j :: 0 <= j < n ==> stats[j][2] == Runnable && chosen[j] != 2
  {
    stats, curs, chosen := seq(n, (j: nat) => Relay(j)), seq(n, j => None), seq(n, (j: nat) => j % 2);
  }
}
