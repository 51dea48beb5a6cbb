/** Scheduling and semaphores of ucore as they run; every method is a stretch of code with interrupts off. */
module Kernel {
  import opened Lists
  import opened Scheduling

  lemma {:induction false} NotLinked(l: seq<Pid>, p: Pid)
    requires p !in l
    ensures Without(l, p) == l
    decreases l
  {
    if l != [] {
      NotLinked(l[1..], p);
      assert l == [l[0]] + l[1..];
    }
  }

  class System {
    var procs: map<Pid, Proc>
    var current: Pid
    var runQueue: seq<Pid>
    var sems: seq<Sem>

    ghost function S(): State
      reads this
    {
      State(procs, current, runQueue, sems)
    }

    /** The idle process runs alone; semaphores have their first values. */
    constructor (values: seq<nat>)
      ensures S() == Boot(values) && Good(S())
    {
      procs := map[IDLE := Proc(Runnable, NotWaiting, Outside, NotWaiting, 0, false)];
      current, runQueue := IDLE, [];
      sems := seq(|values|, k requires 0 <= k < |values| => Sem(values[k], [], Log(values[k], 0, 0, [], [])));
      new;
      BootGood(values);
    }

    /** RR_enqueue */
    method RREnqueue(p: Pid)
      requires p in procs && p !in runQueue   // the assertion in the source
      modifies this`procs, this`runQueue
      ensures S() == Enqueue(old(S()), p)
    {
      runQueue := runQueue + [p];
      if procs[p].slice == 0 || procs[p].slice > MAX_TIME_SLICE {
        procs := procs[p := procs[p].(slice := MAX_TIME_SLICE)];
      }
      assert procs == Enqueue(old(S()), p).procs;
    }

    /** wakeup_proc */
    method WakeupProc(p: Pid)
      requires p in procs && (procs[p].state != Runnable ==> p !in runQueue)
      requires procs[p].state != Zombie       // the assertion in the source
      modifies this`procs, this`runQueue
      ensures S() == Wake(old(S()), p)
    {
      if procs[p].state != Runnable {
        procs := procs[p := procs[p].(state := Runnable, wait := NotWaiting)];
        if p != current && p != IDLE {
          RREnqueue(p);
        }
      }
    }

    /** up */
    method SemUp(k: nat)
      requires Good(S()) && k < |sems|
      modifies this`procs, this`runQueue, this`sems
      ensures Good(old(S())) && Good(S()) && S() == Next(old(S()), DoUp(k))
    {
      ghost var s := S();
      NextKeeps(s, DoUp(k));
      hide Good;
      var m := sems[k];
      var log := m.log.(ups := m.log.ups + 1);
      if m.queue == [] {
        sems := sems[k := m.(value := m.value + 1, log := log)];
      } else {
        var w := m.queue[0];
        WaiterKnown(s, k);
        assert procs[w].wait == KSem;   // the assertion in __up
        sems := sems[k := m.(queue := m.queue[1..], log := log.(downs := log.downs + 1, handed := log.handed + [w]))];
        procs := procs[w := procs[w].(flags := KSem)];
        WakeupProc(w);
      }
    }

    lemma WaiterKnown(s: State, k: nat)
      requires Good(s) && k < |s.sems| && s.sems[k].queue != []
      ensures var w := s.sems[k].queue[0];
        w in s.procs && s.procs[w].wait == KSem && s.procs[w].state == Sleeping && w !in s.runQueue
    {
      UpAsserts(s, k);
      assert SemOk(s, k);
      var w := s.sems[k].queue[0];
      assert w in s.sems[k].queue;
      assert ProcOk(s, w, s.procs[w]);
    }

    /** try_down */
    method TryDown(k: nat) returns (got: bool)
      requires Good(S()) && k < |sems|
      modifies this`sems
      ensures Good(old(S())) && Good(S()) && S() == Next(old(S()), DoTryDown(k)) && got == (old(sems[k].value) > 0)
    {
      NextKeeps(S(), DoTryDown(k));
      got := sems[k].value > 0;
      if got {
        var m := sems[k];
        sems := sems[k := m.(value := m.value - 1, log := m.log.(downs := m.log.downs + 1))];
      }
    }

    /** down, up to its call of schedule: a permit is taken, or the current process is set to wait. */
    method DownBegin(k: nat) returns (done: bool)
      requires Good(S()) && k < |sems| && Free(S())
      modifies this`procs, this`sems
      ensures Good(old(S())) && Good(S()) && S() == Next(old(S()), DoDown(k)) && done == (old(sems[k].value) > 0)
    {
      NextKeeps(S(), DoDown(k));
      hide Good;
      var m := sems[k];
      done := m.value > 0;
      if done {
        sems := sems[k := m.(value := m.value - 1, log := m.log.(downs := m.log.downs + 1))];
      } else {
        var p := current;
        procs := procs[p := procs[p].(state := Sleeping, wait := KSem, flags := Interrupted, place := Blocking(k))];
        sems := sems[k := m.(queue := m.queue + [p], log := m.log.(arrived := m.log.arrived + [p]))];
      }
    }

    /** The rest of down: the wait is unlinked if need be, and the flags say that the permit was handed over. */
    method DownEnd()
      requires Good(S()) && current in procs && procs[current].place.Parked?
      modifies this`procs, this`sems
      ensures Good(old(S())) && Good(S()) && S() == Next(old(S()), DoLeave)
    {
      ghost var s := S();
      NextKeeps(s, DoLeave);
      assert ProcOk(s, current, procs[current]);
      hide Good;
      var k := procs[current].place.sem;
      NotLinked(sems[k].queue, current);
      sems := sems[k := sems[k].(queue := Without(sems[k].queue, current))];
      assert sems == s.sems;
      var flags := procs[current].flags;
      procs := procs[current := procs[current].(place := Outside)];
      assert flags == KSem;   // the assertion in down
    }

    /** schedule: the current process is queued if it can run, and the first of the queue goes on. */
    method ScheduleNext()
      requires Good(S())
      modifies this
      ensures Good(old(S())) && Good(S()) && S() == Next(old(S()), DoSchedule)
    {
      ghost var s := S();
      NextKeeps(s, DoSchedule);
      assert current in procs;
      hide Good;
      var x := procs[current].(needResched := false);
      procs := procs[current := if x.place.Blocking? then x.(place := Parked(x.place.sem)) else x];
      if procs[current].state == Runnable && current != IDLE {
        RREnqueue(current);
      }
      var next := IDLE;
      if runQueue != [] {
        next := runQueue[0];
        runQueue := runQueue[1..];
      }
      current := next;
    }

    /** The clock: the time slice of the current process runs down. */
    method ProcTick()
      requires Good(S())
      modifies this`procs
      ensures Good(old(S())) && Good(S()) && S() == Next(old(S()), ClockTick)
    {
      NextKeeps(S(), ClockTick);
      assert current in procs;
      hide Good;
      var x := procs[current];
      if current != IDLE {
        if x.slice > 0 {
          x := x.(slice := x.slice - 1);
        }
        if x.slice == 0 {
          x := x.(needResched := true);
        }
      } else {
        x := x.(needResched := true);
      }
      procs := procs[current := x];
    }

    /** do_kill, do_exit for the parent, and timers: a process is woken if its wait can be interrupted. */
    method WakeInterruptible(p: Pid)
      requires Good(S()) && p in procs
      modifies this`procs, this`runQueue
      ensures Good(old(S())) && Good(S())
      ensures S() == if old(procs[p].wait) == Interrupted then Next(old(S()), Interrupt(p)) else old(S())
    {
      if procs[p].wait == Interrupted {
        NextKeeps(S(), Interrupt(p));
        assert ProcOk(S(), p, procs[p]);
        hide Good;
        WakeupProc(p);
      }
    }
  }
}
