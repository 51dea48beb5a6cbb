/** What runs of the scheduler come to, counted from their events and states alone. */
module SchedulingRuns {
  import opened Scheduling

  // ---------- permits ----------

  function Ups(es: seq<Event>, k: nat): nat {
    if es == [] then 0 else (if es[0] == DoUp(k) then 1 else 0) + Ups(es[1..], k)
  }

  /** A permit changes hands: it is there and taken, or an up finds somebody waiting. */
  predicate Obtains(s: State, e: Event, k: nat)
    requires k < |s.sems|
  {
    || ((e == DoTryDown(k) || e == DoDown(k)) && s.sems[k].value > 0)
    || (e == DoUp(k) && s.sems[k].queue != [])
  }

  lemma SemsStay(s: State, e: Event)
    requires Good(s) && Enabled(s, e)
    ensures |Next(s, e).sems| == |s.sems|
  {
  }

  /** The permits obtained in a run. */
  ghost function Obtained(s: State, es: seq<Event>, k: nat): nat
    requires Good(s) && CanRun(s, es) && k < |s.sems|
    decreases |es|
  {
    if es == [] then 0 else
      NextKeeps(s, es[0]);
      SemsStay(s, es[0]);
      (if Obtains(s, es[0], k) then 1 else 0) + Obtained(Next(s, es[0]), es[1..], k)
  }

  lemma OnePermit(s: State, e: Event, k: nat)
    requires Good(s) && Enabled(s, e) && k < |s.sems|
    ensures k < |Next(s, e).sems|
    ensures Next(s, e).sems[k].value
         == s.sems[k].value + (if e == DoUp(k) then 1 else 0) - (if Obtains(s, e, k) then 1 else 0)
  {
    SemsStay(s, e);
  }

  /** Every up makes a permit, and every permit obtained is gone. */
  lemma {:induction false} PermitsAdd(s: State, es: seq<Event>, k: nat)
    requires Good(s) && CanRun(s, es) && k < |s.sems|
    ensures k < |After(s, es).sems|
    ensures After(s, es).sems[k].value == s.sems[k].value + Ups(es, k) - Obtained(s, es, k)
    decreases |es|
  {
    hide Good, Enabled, Next, Obtains;
    if es != [] {
      NextKeeps(s, es[0]);
      OnePermit(s, es[0], k);
      PermitsAdd(Next(s, es[0]), es[1..], k);
    }
  }

  /** So never more are obtained than there were and were made, and all of them while anybody waits. */
  lemma NeverTooMany(s: State, es: seq<Event>, k: nat)
    requires Good(s) && CanRun(s, es) && k < |s.sems|
    ensures k < |After(s, es).sems| && Obtained(s, es, k) <= s.sems[k].value + Ups(es, k)
    ensures After(s, es).sems[k].queue != [] ==> Obtained(s, es, k) == s.sems[k].value + Ups(es, k)
  {
    EveryRun(s, es);
    PermitsAdd(s, es, k);
    assert SemOk(After(s, es), k);
  }

  // ---------- who waits gets a permit in turn ----------

  /** Who has to wait is last. */
  lemma JoinsLast(s: State, k: nat)
    requires Good(s) && Enabled(s, DoDown(k)) && s.sems[k].value <= 0
    ensures k < |s.sems| == |Next(s, DoDown(k)).sems|
    ensures Next(s, DoDown(k)).sems[k].queue == s.sems[k].queue + [s.current]
  {
  }

  /** Every up moves the waiters on by one and grants the first his permit; nothing else changes their places. */
  lemma InTurn(s: State, e: Event, k: nat, i: nat)
    requires Good(s) && Enabled(s, e) && k < |s.sems| && i < |s.sems[k].queue|
    ensures var t := Next(s, e);
      && k < |t.sems|
      && (if e == DoUp(k) then
            (if i == 0 then Granted(t, s.sems[k].queue[0], k)
             else i <= |t.sems[k].queue| && t.sems[k].queue[i - 1] == s.sems[k].queue[i])
          else i < |t.sems[k].queue| && t.sems[k].queue[i] == s.sems[k].queue[i])
  {
    SemsStay(s, e);
    if e == DoUp(k) {
      UpGrants(s, k);
    }
  }

  /** In any run with enough ups a waiter is granted a permit, whatever else happens. */
  lemma {:induction false} GetsPermit(s: State, es: seq<Event>, k: nat, i: nat) returns (n: nat)
    requires Good(s) && CanRun(s, es) && k < |s.sems| && i < |s.sems[k].queue| && Ups(es, k) > i
    ensures n <= |es| && CanRun(s, es[..n]) && Granted(After(s, es[..n]), s.sems[k].queue[i], k)
    decreases |es|
  {
    hide Good, Enabled, Next, Granted;
    var e := es[0];
    NextKeeps(s, e);
    InTurn(s, e, k, i);
    var t := Next(s, e);
    if e == DoUp(k) && i == 0 {
      n := 1;
      assert es[..1] == [e];
      assert After(t, []) == t;
      assert [e][1..] == [];
      assert CanRun(t, []);
    } else {
      var m := GetsPermit(t, es[1..], k, if e == DoUp(k) then i - 1 else i);
      n := m + 1;
      assert es[..n][1..] == es[1..][..m];
    }
  }

  // ---------- who cannot run does not ----------

  /** Whoever schedule picks can run. */
  lemma PicksRunnable(s: State)
    requires Good(s) && Enabled(s, DoSchedule)
    ensures var t := Next(s, DoSchedule); t.current in t.procs && t.procs[t.current].state == Runnable
  {
  }

  /** A process that waits, sleeps or has ended cannot run. */
  lemma StopsRunning(s: State, e: Event)
    requires Good(s) && Enabled(s, e) && s.current in s.procs
    requires e.DoSleep? || e.DoExit? || (e.DoDown? && s.sems[e.k].value <= 0)
    ensures var t := Next(s, e);
      && s.current in t.procs && t.procs[s.current].state == (if e.DoExit? then Zombie else Sleeping)
      && (forall p :: p in s.procs && p != s.current ==> p in t.procs && t.procs[p] == s.procs[p])
  {
  }

  /** A new process, and one that is woken, is last on the run queue, with time to run; one that is back from down is free. */
  lemma JoinsQueue(s: State, e: Event, p: Pid)
    requires Good(s) && Enabled(s, e) && p != IDLE && p != s.current
    requires e == DoFork(p) || (p in s.procs && s.procs[p].state != Runnable && (e == Interrupt(p) || e == TimerFires(p)))
    ensures var t := Next(s, e);
      p in t.procs && t.procs[p].state == Runnable && t.procs[p].slice > 0 && t.runQueue == s.runQueue + [p]
  {
  }

  lemma BackFromDown(s: State)
    requires Good(s) && Enabled(s, DoLeave)
    ensures var t := Next(s, DoLeave);
      t.current == s.current && t.current in t.procs && t.procs[t.current].place == Outside
  {
  }

  /** What wakes a sleeping process: an up that hands it a permit, or what may interrupt its wait. */
  predicate Wakes(s: State, e: Event, p: Pid) {
    match e
    case DoUp(k) => k < |s.sems| && s.sems[k].queue != [] && s.sems[k].queue[0] == p
    case Interrupt(q) => q == p
    case TimerFires(q) => q == p
    case _ => false
  }

  /** Exactly these events wake it, and nothing wakes the dead. */
  lemma SleepsUntilWoken(s: State, e: Event, p: Pid)
    requires Good(s) && Enabled(s, e) && p in s.procs && s.procs[p].state != Runnable && e != DoReap(p) && e != DoExit
    ensures p in Next(s, e).procs
    ensures Next(s, e).procs[p].state == if Wakes(s, e, p) then Runnable else s.procs[p].state
    ensures s.procs[p].state == Zombie ==> !Wakes(s, e, p)
  {
    assert ProcOk(s, p, s.procs[p]);
    if e.DoUp? {
      UpKeeps(s, e.k);
      assert SemOk(s, e.k);
      if s.sems[e.k].queue != [] {
        var w := s.sems[e.k].queue[0];
        assert w in s.sems[e.k].queue;
        assert ProcOk(s, w, s.procs[w]);
      }
    }
  }

  // ---------- time slices ----------

  /** Processes that do not run are not asked to give way, and those on the run queue have time left. */
  ghost predicate Rested(s: State) {
    && (forall p :: p in s.procs && p != s.current ==> !s.procs[p].needResched)
    && (forall p :: p in s.runQueue ==> p in s.procs && s.procs[p].slice > 0)
  }

  lemma BootRested(values: seq<nat>)
    ensures Rested(Boot(values))
  {
  }

  lemma StaysRested(s: State, e: Event)
    requires Good(s) && Enabled(s, e) && Rested(s)
    ensures Rested(Next(s, e))
  {
    if e.DoUp? {
      UpRested(s, e.k);
    } else if e == DoSchedule {
      ScheduleRested(s);
    } else if e.Interrupt? || e.TimerFires? {
      WakeRested(s, e.p);
    } else {
      OthersRested(s, e);
    }
  }

  lemma WakeRested(s: State, p: Pid)
    requires Rested(s) && p in s.procs
    ensures Rested(Wake(s, p))
  {
  }

  lemma UpRested(s: State, k: nat)
    requires Good(s) && Rested(s) && k < |s.sems|
    ensures forall p :: p in s.sems[k].queue ==> p in s.procs
    ensures Rested(Up(s, k))
  {
    UpKeeps(s, k);
    hide Good, Enqueue;
    if s.sems[k].queue != [] {
      var m, w := s.sems[k], s.sems[k].queue[0];
      var log := m.log.(ups := m.log.ups + 1, downs := m.log.downs + 1, handed := m.log.handed + [w]);
      var t := s.(sems := s.sems[k := m.(queue := m.queue[1..], log := log)],
                  procs := s.procs[w := s.procs[w].(flags := KSem)]);
      assert Rested(t);
      WakeRested(t, w);
    }
  }

  lemma ScheduleRested(s: State)
    requires Good(s) && Rested(s)
    ensures s.current in s.procs && Rested(Schedule(s))
  {
  }

  lemma OthersRested(s: State, e: Event)
    requires Good(s) && Enabled(s, e) && Rested(s)
    requires !e.DoUp? && e != DoSchedule && !e.Interrupt? && !e.TimerFires?
    ensures Rested(Next(s, e))
  {
  }

  lemma {:induction false} EveryRunRested(s: State, es: seq<Event>)
    requires Good(s) && CanRun(s, es) && Rested(s)
    ensures Rested(After(s, es))
    decreases |es|
  {
    hide Good, Enabled, Next, Rested;
    if es != [] {
      NextKeeps(s, es[0]);
      StaysRested(s, es[0]);
      EveryRunRested(Next(s, es[0]), es[1..]);
    }
  }

  /** Whoever gets to run, but the idle process, has time, and is not asked to give way yet. */
  lemma StartsRested(s: State)
    requires Good(s) && Rested(s) && Enabled(s, DoSchedule)
    ensures var t := Next(s, DoSchedule);
      && t.current in t.procs
      && (t.current != IDLE ==> 0 < t.procs[t.current].slice <= MAX_TIME_SLICE && !t.procs[t.current].needResched)
  {
    ScheduleKeeps(s);
    var t := Next(s, DoSchedule);
    assert ProcOk(t, t.current, t.procs[t.current]);
  }

  function Ticks(es: seq<Event>): nat {
    if es == [] then 0 else (if es[0] == ClockTick then 1 else 0) + Ticks(es[1..])
  }

  lemma OneTick(s: State, e: Event)
    requires Good(s) && Enabled(s, e) && e != DoSchedule && s.current != IDLE
    ensures var t := Next(s, e);
      && t.current == s.current && s.current in s.procs && s.current in t.procs
      && var (x, y) := (s.procs[s.current], t.procs[s.current]);
         if e != ClockTick then y.slice == x.slice && y.needResched == x.needResched
         else y.slice == (if x.slice > 0 then x.slice - 1 else 0) && y.needResched == (x.needResched || x.slice <= 1)
  {
    if e.DoUp? {
      UpKeeps(s, e.k);
    }
  }

  /** As long as it does not call schedule, a process is asked to give way from the tick on that uses up its slice. */
  lemma {:induction false} GivesWay(s: State, es: seq<Event>)
    requires Good(s) && CanRun(s, es) && DoSchedule !in es && s.current != IDLE && s.current in s.procs
    requires s.procs[s.current].slice > 0 && !s.procs[s.current].needResched
    ensures var t := After(s, es);
      && t.current == s.current && s.current in t.procs
      && (t.procs[s.current].needResched <==> Ticks(es) >= s.procs[s.current].slice)
    decreases |es|
  {
    hide Good, Enabled, Next;
    if es != [] {
      NextKeeps(s, es[0]);
      OneTick(s, es[0]);
      var t := Next(s, es[0]);
      if t.procs[t.current].needResched {
        StillAsked(t, es[1..]);
      } else {
        GivesWay(t, es[1..]);
      }
    }
  }

  lemma {:induction false} StillAsked(s: State, es: seq<Event>)
    requires Good(s) && CanRun(s, es) && DoSchedule !in es && s.current != IDLE && s.current in s.procs
    requires s.procs[s.current].needResched
    ensures var t := After(s, es); t.current == s.current && s.current in t.procs && t.procs[s.current].needResched
    decreases |es|
  {
    hide Good, Enabled, Next;
    if es != [] {
      NextKeeps(s, es[0]);
      OneTick(s, es[0]);
      StillAsked(Next(s, es[0]), es[1..]);
    }
  }
}
