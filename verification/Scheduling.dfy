/**
 * Processes, the run queue and semaphores of ucore (kern/schedule, kern/sync): what every atomic step does.
 * Steps are the stretches of kernel code that run with interrupts off.
 */
module Scheduling {
  import opened Lists

  type Pid = nat

  /** The idle process runs when nobody else can; it is never queued and never sleeps. */
  const IDLE: Pid := 0

  const MAX_TIME_SLICE := 20

  datatype ProcState = Sleeping | Runnable | Zombie

  /** wait_state, and also wakeup_flags of a wait: only some waits can be interrupted. */
  datatype Wait = NotWaiting | KSem | Interrupted

  /** How far a process is in down or in a timed sleep; before and after it calls schedule. */
  datatype Place = Outside | Blocking(sem: nat) | Parked(sem: nat) | Napping

  datatype Proc = Proc(state: ProcState, wait: Wait, place: Place, flags: Wait, slice: nat, needResched: bool)

  /** The log says what has happened: ups, downs that got a permit, who has waited, and who was handed a permit. */
  datatype Log = Log(initial: nat, ups: nat, downs: nat, arrived: seq<Pid>, handed: seq<Pid>)

  datatype Sem = Sem(value: int, queue: seq<Pid>, log: Log)

  datatype State = State(procs: map<Pid, Proc>, current: Pid, runQueue: seq<Pid>, sems: seq<Sem>)

  // ---------- the invariant ----------

  /** Inside down a process waits in the queue, asleep, or it has been handed a permit and can run. */
  predicate DownOk(s: State, p: Pid, x: Proc, k: nat) {
    && k < |s.sems|
    && (if p in s.sems[k].queue then x.state == Sleeping && x.wait == KSem && x.flags == Interrupted
        else x.state == Runnable && x.wait == NotWaiting && x.flags == KSem)
  }

  predicate ProcOk(s: State, p: Pid, x: Proc) {
    && x.slice <= MAX_TIME_SLICE
    && (x.state == Runnable ==> x.wait == NotWaiting)
    && match x.place
       case Outside => (x.state == Sleeping ==> x.wait == Interrupted) && (x.state == Zombie ==> x.wait == NotWaiting)
       case Napping => x.state != Zombie && (x.state == Sleeping ==> x.wait == Interrupted)
       case Blocking(k) => DownOk(s, p, x, k) && p == s.current
       case Parked(k) => DownOk(s, p, x, k) && (p == s.current ==> x.state == Runnable)
  }

  /** Permits are conserved, none is left while somebody waits, and they are handed out in the order of arrival. */
  ghost predicate SemOk(s: State, k: nat)
    requires k < |s.sems|
  {
    var m := s.sems[k];
    && m.value >= 0 && (m.value > 0 ==> m.queue == []) && Distinct(m.queue)
    && (forall p :: p in m.queue ==> p in s.procs && s.procs[p].place in {Blocking(k), Parked(k)})
    && m.value + m.log.downs == m.log.initial + m.log.ups
    && m.log.arrived == m.log.handed + m.queue
  }

  /** On the run queue are exactly the processes that can run and do not. */
  ghost predicate QueueOk(s: State) {
    && Distinct(s.runQueue)
    && forall p :: p in s.runQueue <==> p in s.procs && s.procs[p].state == Runnable && p != s.current && p != IDLE
  }

  predicate IdleOk(s: State) {
    && IDLE in s.procs && s.current in s.procs
    && s.procs[IDLE].state == Runnable && s.procs[IDLE].place == Outside
  }

  ghost predicate Good(s: State) {
    && IdleOk(s) && QueueOk(s)
    && (forall p :: p in s.procs ==> ProcOk(s, p, s.procs[p]))
    && (forall k :: 0 <= k < |s.sems| ==> SemOk(s, k))
  }

  // ---------- steps ----------

  /** RR_enqueue */
  function Enqueue(s: State, p: Pid): State
    requires p in s.procs
  {
    var x := s.procs[p];
    s.(runQueue := s.runQueue + [p],
       procs := s.procs[p := if x.slice == 0 || x.slice > MAX_TIME_SLICE then x.(slice := MAX_TIME_SLICE) else x])
  }

  /** wakeup_proc */
  function Wake(s: State, p: Pid): State
    requires p in s.procs
  {
    if s.procs[p].state == Runnable then s else
      var t := s.(procs := s.procs[p := s.procs[p].(state := Runnable, wait := NotWaiting)]);
      if p == s.current || p == IDLE then t else Enqueue(t, p)
  }

  /** up: a permit goes to the first who waits, or is kept. */
  function Up(s: State, k: nat): State
    requires k < |s.sems| && forall p :: p in s.sems[k].queue ==> p in s.procs
  {
    var m := s.sems[k];
    var log := m.log.(ups := m.log.ups + 1);
    if m.queue == [] then s.(sems := s.sems[k := m.(value := m.value + 1, log := log)]) else
      var w := m.queue[0];
      var log2 := log.(downs := log.downs + 1, handed := log.handed + [w]);
      var t := s.(sems := s.sems[k := m.(queue := m.queue[1..], log := log2)],
                  procs := s.procs[w := s.procs[w].(flags := KSem)]);
      Wake(t, w)
  }

  /** try_down, and the first part of down where there is a permit. */
  function TakePermit(s: State, k: nat): State
    requires k < |s.sems|
  {
    var m := s.sems[k];
    s.(sems := s.sems[k := m.(value := m.value - 1, log := m.log.(downs := m.log.downs + 1))])
  }

  /** wait_current_set: the current process will wait, but it runs on until it calls schedule. */
  function StartWaiting(s: State, k: nat): State
    requires k < |s.sems| && s.current in s.procs
  {
    var m := s.sems[k];
    var p := s.current;
    s.(sems := s.sems[k := m.(queue := m.queue + [p], log := m.log.(arrived := m.log.arrived + [p]))],
       procs := s.procs[p := s.procs[p].(state := Sleeping, wait := KSem, flags := Interrupted, place := Blocking(k))])
  }

  /** schedule, up to the switch to the next process. */
  function Schedule(s: State): State
    requires s.current in s.procs
  {
    var c := s.current;
    var x := s.procs[c].(needResched := false);
    var y := if x.place.Blocking? then x.(place := Parked(x.place.sem)) else x;
    var t := s.(procs := s.procs[c := y]);
    var u := if y.state == Runnable && c != IDLE then Enqueue(t, c) else t;
    if u.runQueue == [] then u.(current := IDLE)
    else u.(current := u.runQueue[0], runQueue := u.runQueue[1..])
  }

  /** The end of down, once the process runs again. */
  function Leave(s: State): State
    requires s.current in s.procs
  {
    s.(procs := s.procs[s.current := s.procs[s.current].(place := Outside)])
  }

  /** The current process sleeps until something wakes it; do_sleep also sets a timer. */
  function Sleep(s: State, timed: bool): State
    requires s.current in s.procs
  {
    var x := s.procs[s.current].(state := Sleeping, wait := Interrupted, place := if timed then Napping else Outside);
    s.(procs := s.procs[s.current := x])
  }

  function Exit(s: State): State
    requires s.current in s.procs
  {
    s.(procs := s.procs[s.current := s.procs[s.current].(state := Zombie)])
  }

  /** A new process, made runnable by wakeup_proc. */
  function Fork(s: State, p: Pid): State {
    Enqueue(s.(procs := s.procs[p := Proc(Runnable, NotWaiting, Outside, NotWaiting, 0, false)]), p)
  }

  function Reap(s: State, p: Pid): State {
    s.(procs := s.procs - {p})
  }

  /** sched_class_proc_tick */
  function Tick(s: State): State
    requires s.current in s.procs
  {
    var x := s.procs[s.current];
    var slice := if x.slice > 0 && s.current != IDLE then x.slice - 1 else x.slice;
    var y := x.(slice := slice, needResched := x.needResched || slice == 0 || s.current == IDLE);
    s.(procs := s.procs[s.current := y])
  }

  // ---------- the invariant is kept ----------

  lemma {:induction false} Append(l: seq<Pid>, p: Pid)
    requires Distinct(l) && p !in l
    ensures Distinct(l + [p])
    decreases l
  {
    if l == [] {
      assert [] + [p] == [p];
      assert [p][1..] == [];
    } else {
      assert (l + [p])[1..] == l[1..] + [p];
      Append(l[1..], p);
    }
  }

  lemma FirstAndRest(l: seq<Pid>)
    requires Distinct(l) && l != []
    ensures l[0] in l && Distinct(l[1..]) && forall p :: p in l[1..] <==> p in l && p != l[0]
  {
    assert l == [l[0]] + l[1..];
  }

  /** A sleeping process of which everything else is in order is woken. */
  lemma WakeKeeps(s: State, t: State, p: Pid)
    requires Good(s) && p in s.procs && s.procs[p].wait == Interrupted && s.procs[p].state != Runnable
    requires t == Wake(s, p)
    ensures Good(t)
  {
    assert ProcOk(s, p, s.procs[p]);
    Append(s.runQueue, p);
    forall q | q in t.procs ensures ProcOk(t, q, t.procs[q]) {
      assert ProcOk(s, q, s.procs[q]);
    }
    forall k | 0 <= k < |t.sems| ensures SemOk(t, k) {
      assert SemOk(s, k);
    }
  }

  /** Processes other than those that changed are in order as before. */
  lemma OthersOk(s: State, t: State, p: Pid)
    requires Good(s) && p in s.procs && p in t.procs && t.procs[p] == s.procs[p]
    requires |t.sems| == |s.sems| && (p == t.current ==> p == s.current) && (p == s.current ==> p == t.current)
    requires forall k :: 0 <= k < |s.sems| ==> (p in t.sems[k].queue <==> p in s.sems[k].queue)
    ensures ProcOk(t, p, t.procs[p])
  {
    assert ProcOk(s, p, s.procs[p]);
  }

  lemma UpKeeps(s: State, k: nat)
    requires Good(s) && k < |s.sems|
    ensures forall p :: p in s.sems[k].queue ==> p in s.procs
    ensures s.sems[k].queue != [] ==> s.procs[s.sems[k].queue[0]].wait == KSem   // the assertion in __up
    ensures Good(Up(s, k))
  {
    assert SemOk(s, k);
    if s.sems[k].queue == [] {
      UpKept(s, k);
    } else {
      UpHands(s, k);
    }
  }

  lemma UpKept(s: State, k: nat)
    requires Good(s) && k < |s.sems| && s.sems[k].queue == []
    ensures Good(Up(s, k))
  {
    var t := Up(s, k);
    assert SemOk(s, k);
    forall q | q in t.procs ensures ProcOk(t, q, t.procs[q]) {
      OthersOk(s, t, q);
    }
    forall j | 0 <= j < |t.sems| ensures SemOk(t, j) {
      assert SemOk(s, j);
    }
  }

  lemma UpHands(s: State, k: nat)
    requires Good(s) && k < |s.sems| && s.sems[k].queue != []
    ensures forall p :: p in s.sems[k].queue ==> p in s.procs
    ensures s.procs[s.sems[k].queue[0]].wait == KSem && Good(Up(s, k))
  {
    assert SemOk(s, k);
    var w := s.sems[k].queue[0];
    assert w in s.sems[k].queue;
    assert ProcOk(s, w, s.procs[w]);
    HandsSems(s, k);
    HandsQueue(s, k);
    HandsProcs(s, k);
    hide SemOk, ProcOk, QueueOk, IdleOk;
  }

  lemma HandsQueue(s: State, k: nat)
    requires k < |s.sems| && s.sems[k].queue != [] && forall p :: p in s.sems[k].queue ==> p in s.procs
    requires var w := s.sems[k].queue[0]; w in s.procs && s.procs[w].state == Sleeping
    requires QueueOk(s) && IdleOk(s)
    ensures QueueOk(Up(s, k)) && IdleOk(Up(s, k))
  {
    Append(s.runQueue, s.sems[k].queue[0]);
  }

  lemma HandsProcs(s: State, k: nat)
    requires Good(s) && k < |s.sems| && s.sems[k].queue != [] && forall p :: p in s.sems[k].queue ==> p in s.procs
    ensures var t := Up(s, k); forall q :: q in t.procs ==> ProcOk(t, q, t.procs[q])
  {
    assert SemOk(s, k);
    FirstAndRest(s.sems[k].queue);
    var w := s.sems[k].queue[0];
    assert ProcOk(s, w, s.procs[w]);
    var t := Up(s, k);
    hide SemOk, Distinct, QueueOk;
    forall q | q in t.procs ensures ProcOk(t, q, t.procs[q]) {
      if q != w {
        OthersOk(s, t, q);
      }
    }
  }

  lemma HandsSems(s: State, k: nat)
    requires k < |s.sems| && s.sems[k].queue != [] && forall p :: p in s.sems[k].queue ==> p in s.procs
    requires forall j :: 0 <= j < |s.sems| ==> SemOk(s, j)
    ensures var t := Up(s, k); |t.sems| == |s.sems| && forall j :: 0 <= j < |t.sems| ==> SemOk(t, j)
  {
    var t := Up(s, k);
    assert SemOk(s, k);
    FirstAndRest(s.sems[k].queue);
    HandsLog(s.sems[k].log.handed, s.sems[k].queue);
    forall j | 0 <= j < |t.sems| ensures SemOk(t, j) {
      assert SemOk(s, j);
    }
  }

  lemma HandsLog(handed: seq<Pid>, queue: seq<Pid>)
    requires queue != []
    ensures handed + queue == handed + [queue[0]] + queue[1..]
  {
  }

  lemma TakeKeeps(s: State, k: nat)
    requires Good(s) && k < |s.sems| && s.sems[k].value > 0
    ensures Good(TakePermit(s, k))
  {
    var t := TakePermit(s, k);
    assert SemOk(s, k);
    forall q | q in t.procs ensures ProcOk(t, q, t.procs[q]) {
      OthersOk(s, t, q);
    }
    forall j | 0 <= j < |t.sems| ensures SemOk(t, j) {
      assert SemOk(s, j);
    }
  }

  /** The current process may start something that makes it wait. */
  predicate Free(s: State) {
    s.current in s.procs && s.current != IDLE && s.procs[s.current].state == Runnable && s.procs[s.current].place == Outside
  }

  lemma WaitKeeps(s: State, k: nat)
    requires Good(s) && k < |s.sems| && Free(s) && s.sems[k].value <= 0
    ensures Good(StartWaiting(s, k))
  {
    var t := StartWaiting(s, k);
    var p := s.current;
    assert SemOk(s, k);
    forall j | 0 <= j < |s.sems| ensures p !in s.sems[j].queue {
      assert SemOk(s, j);
    }
    Append(s.sems[k].queue, p);
    forall q | q in t.procs ensures ProcOk(t, q, t.procs[q]) {
      if q != p {
        OthersOk(s, t, q);
      }
    }
    forall j | 0 <= j < |t.sems| ensures SemOk(t, j) {
      assert SemOk(s, j);
      assert j == k ==> t.sems[k].log.arrived == t.sems[k].log.handed + t.sems[k].queue;
    }
  }

  /** The current process has come back from schedule. */
  predicate Resumed(s: State) {
    && s.current in s.procs
    && (s.procs[s.current].place.Parked? || (s.procs[s.current].place == Napping && s.procs[s.current].state == Runnable))
  }

  lemma LeaveKeeps(s: State)
    requires Good(s) && Resumed(s)
    ensures s.procs[s.current].place.Parked? ==> s.procs[s.current].flags == KSem   // the assertion in down
    ensures Good(Leave(s))
  {
    var t := Leave(s);
    var p := s.current;
    assert ProcOk(s, p, s.procs[p]);
    forall j | 0 <= j < |s.sems| ensures p !in s.sems[j].queue {
      assert SemOk(s, j);
    }
    forall q | q in t.procs ensures ProcOk(t, q, t.procs[q]) {
      if q != p {
        OthersOk(s, t, q);
      }
    }
    forall j | 0 <= j < |t.sems| ensures SemOk(t, j) {
      assert SemOk(s, j);
    }
  }

  lemma SleepKeeps(s: State, timed: bool)
    requires Good(s) && Free(s)
    ensures Good(Sleep(s, timed)) && Good(Exit(s))
  {
    var p := s.current;
    assert ProcOk(s, p, s.procs[p]);
    forall j | 0 <= j < |s.sems| ensures SemOk(Sleep(s, timed), j) && SemOk(Exit(s), j) && p !in s.sems[j].queue {
      assert SemOk(s, j);
    }
    forall q | q in s.procs && q != p ensures ProcOk(Sleep(s, timed), q, s.procs[q]) && ProcOk(Exit(s), q, s.procs[q]) {
      OthersOk(s, Sleep(s, timed), q);
      OthersOk(s, Exit(s), q);
    }
    assert ProcOk(Sleep(s, timed), p, Sleep(s, timed).procs[p]);
    assert ProcOk(Exit(s), p, Exit(s).procs[p]);
  }

  lemma TickKeeps(s: State)
    requires Good(s)
    ensures Good(Tick(s))
  {
    var t := Tick(s);
    var p := s.current;
    forall q | q in t.procs ensures ProcOk(t, q, t.procs[q]) {
      assert ProcOk(s, q, s.procs[q]);
    }
    forall j | 0 <= j < |t.sems| ensures SemOk(t, j) {
      assert SemOk(s, j);
    }
  }

  lemma ForkKeeps(s: State, p: Pid)
    requires Good(s) && p !in s.procs
    ensures Good(Fork(s, p))
  {
    var t := Fork(s, p);
    Append(s.runQueue, p);
    forall q | q in t.procs ensures ProcOk(t, q, t.procs[q]) {
      assert q != p ==> ProcOk(s, q, s.procs[q]);
    }
    forall j | 0 <= j < |t.sems| ensures SemOk(t, j) {
      assert SemOk(s, j);
    }
  }

  lemma ReapKeeps(s: State, p: Pid)
    requires Good(s) && p in s.procs && s.procs[p].state == Zombie && p != s.current
    ensures Good(Reap(s, p))
  {
    var t := Reap(s, p);
    assert ProcOk(s, p, s.procs[p]);
    forall q | q in t.procs ensures ProcOk(t, q, t.procs[q]) {
      assert ProcOk(s, q, s.procs[q]);
    }
    forall j | 0 <= j < |t.sems| ensures SemOk(t, j) {
      assert SemOk(s, j);
    }
  }

  // ---------- schedule ----------

  /** The first part of schedule: the current process goes back to the queue if it can run. */
  function GiveUp(s: State): State
    requires s.current in s.procs
  {
    var c := s.current;
    var x := s.procs[c].(needResched := false);
    var y := if x.place.Blocking? then x.(place := Parked(x.place.sem)) else x;
    var t := s.(procs := s.procs[c := y]);
    if y.state == Runnable && c != IDLE then Enqueue(t, c) else t
  }

  /** The second part: the first of the queue runs, or the idle process. */
  function PickNext(u: State): State {
    if u.runQueue == [] then u.(current := IDLE) else u.(current := u.runQueue[0], runQueue := u.runQueue[1..])
  }

  /** Between the two parts everybody who can run is on the queue. */
  ghost predicate Switching(u: State) {
    && IDLE in u.procs && u.procs[IDLE].state == Runnable && u.procs[IDLE].place == Outside
    && Distinct(u.runQueue)
    && (forall p :: p in u.runQueue <==> p in u.procs && u.procs[p].state == Runnable && p != IDLE)
    && (forall p :: p in u.procs ==> NobodyRuns(u, p))
    && (forall k :: 0 <= k < |u.sems| ==> SemOk(u, k))
  }

  ghost predicate NobodyRuns(u: State, p: Pid)
    requires p in u.procs
  {
    var x := u.procs[p];
    && x.slice <= MAX_TIME_SLICE
    && (x.state == Runnable ==> x.wait == NotWaiting)
    && match x.place
       case Outside => (x.state == Sleeping ==> x.wait == Interrupted) && (x.state == Zombie ==> x.wait == NotWaiting)
       case Napping => x.state != Zombie && (x.state == Sleeping ==> x.wait == Interrupted)
       case Blocking(k) => false
       case Parked(k) => DownOk(u, p, x, k)
  }

  lemma GiveUpKeeps(s: State)
    requires Good(s)
    ensures s.procs[s.current].state == Runnable ==> s.current !in s.runQueue   // the assertion in RR_enqueue
    ensures Switching(GiveUp(s)) && Schedule(s) == PickNext(GiveUp(s))
  {
    var u := GiveUp(s);
    GiveUpQueue(s);
    forall p | p in u.procs ensures NobodyRuns(u, p) {
      assert ProcOk(s, p, s.procs[p]);
    }
    forall k | 0 <= k < |u.sems| ensures SemOk(u, k) {
      assert SemOk(s, k);
    }
  }

  lemma GiveUpQueue(s: State)
    requires IdleOk(s) && QueueOk(s)
    ensures var u := GiveUp(s);
      && Distinct(u.runQueue)
      && forall p :: p in u.runQueue <==> p in u.procs && u.procs[p].state == Runnable && p != IDLE
  {
    Append(s.runQueue, s.current);
  }

  lemma PickNextKeeps(u: State)
    requires Switching(u)
    ensures Good(PickNext(u))
  {
    var t := PickNext(u);
    if u.runQueue != [] {
      FirstAndRest(u.runQueue);
    }
    forall p | p in t.procs ensures ProcOk(t, p, t.procs[p]) {
      assert NobodyRuns(u, p);
    }
    forall k | 0 <= k < |t.sems| ensures SemOk(t, k) {
      assert SemOk(u, k);
    }
  }

  lemma ScheduleKeeps(s: State)
    requires Good(s)
    ensures Good(Schedule(s))
  {
    assert s.current in s.procs;
    hide Good, Switching, GiveUp, PickNext;
    GiveUpKeeps(s);
    PickNextKeeps(GiveUp(s));
  }

  // ---------- every run ----------

  /** What may happen next: steps of the current process, and interrupts. */
  datatype Event =
    | DoUp(k: nat)                 // also from an interrupt
    | DoTryDown(k: nat)
    | DoDown(k: nat)               // up to the call of schedule
    | DoSchedule
    | DoLeave                      // the rest of down, or of a timed sleep
    | DoSleep(timed: bool)
    | DoExit
    | DoFork(p: Pid)
    | DoReap(p: Pid)
    | Interrupt(p: Pid)            // do_kill, the parent in do_exit, the keyboard: only if the wait can be interrupted
    | TimerFires(p: Pid)
    | ClockTick

  ghost predicate Enabled(s: State, e: Event) {
    match e
    case DoUp(k) => k < |s.sems|
    case DoTryDown(k) => k < |s.sems|
    case DoDown(k) => k < |s.sems| && Free(s)
    case DoSchedule => s.current in s.procs
    case DoLeave => Resumed(s)
    case DoSleep(_) => Free(s)
    case DoExit => Free(s)
    case DoFork(p) => p !in s.procs
    case DoReap(p) => p in s.procs && s.procs[p].state == Zombie && p != s.current
    case Interrupt(p) => p in s.procs && s.procs[p].wait == Interrupted
    case TimerFires(p) => p in s.procs && s.procs[p].place == Napping
    case ClockTick => s.current in s.procs
  }

  ghost function Next(s: State, e: Event): State
    requires Good(s) && Enabled(s, e)
  {
    match e
    case DoUp(k) => UpKeeps(s, k); Up(s, k)
    case DoTryDown(k) => if s.sems[k].value > 0 then TakePermit(s, k) else s
    case DoDown(k) => if s.sems[k].value > 0 then TakePermit(s, k) else StartWaiting(s, k)
    case DoSchedule => Schedule(s)
    case DoLeave => Leave(s)
    case DoSleep(timed) => Sleep(s, timed)
    case DoExit => Exit(s)
    case DoFork(p) => Fork(s, p)
    case DoReap(p) => Reap(s, p)
    case Interrupt(p) => Wake(s, p)
    case TimerFires(p) => Wake(s, p)
    case ClockTick => Tick(s)
  }

  /** Assertions of the source that belong to an event. */
  ghost predicate AssertionsHold(s: State, e: Event)
    requires Good(s) && Enabled(s, e)
  {
    match e
    case DoUp(k) =>
      UpKeeps(s, k);
      s.sems[k].queue != [] ==>
        var w := s.sems[k].queue[0];
        s.procs[w].wait == KSem && s.procs[w].state != Zombie && w !in s.runQueue
    case DoSchedule => s.procs[s.current].state == Runnable ==> s.current !in s.runQueue
    case DoLeave => s.procs[s.current].place.Parked? ==> s.procs[s.current].flags == KSem
    case Interrupt(p) => s.procs[p].state != Zombie
    case TimerFires(p) => s.procs[p].state != Zombie && s.procs[p].wait != KSem
    case _ => true
  }

  lemma NextKeeps(s: State, e: Event)
    requires Good(s) && Enabled(s, e)
    ensures Good(Next(s, e)) && AssertionsHold(s, e)
  {
    match e
    case DoUp(k) => UpKeeps(s, k); UpAsserts(s, k);
    case DoTryDown(k) => if s.sems[k].value > 0 { TakeKeeps(s, k); }
    case DoDown(k) => if s.sems[k].value > 0 { TakeKeeps(s, k); } else { WaitKeeps(s, k); }
    case DoSchedule => ScheduleKeeps(s);
    case DoLeave => LeaveKeeps(s);
    case DoSleep(timed) => SleepKeeps(s, timed);
    case DoExit => SleepKeeps(s, false);
    case DoFork(p) => ForkKeeps(s, p);
    case DoReap(p) => ReapKeeps(s, p);
    case Interrupt(p) => InterruptKeeps(s, p);
    case TimerFires(p) => InterruptKeeps(s, p);
    case ClockTick => TickKeeps(s);
  }

  lemma UpAsserts(s: State, k: nat)
    requires Good(s) && k < |s.sems|
    ensures AssertionsHold(s, DoUp(k))
  {
    UpKeeps(s, k);
    assert SemOk(s, k);
    if s.sems[k].queue != [] {
      var w := s.sems[k].queue[0];
      assert w in s.sems[k].queue;
      assert ProcOk(s, w, s.procs[w]);
    }
  }

  lemma InterruptKeeps(s: State, p: Pid)
    requires Good(s) && p in s.procs && (s.procs[p].wait == Interrupted || s.procs[p].place == Napping)
    ensures Good(Wake(s, p)) && s.procs[p].state != Zombie && s.procs[p].wait != KSem
  {
    assert ProcOk(s, p, s.procs[p]);
    if s.procs[p].state != Runnable {
      WakeKeeps(s, Wake(s, p), p);
    }
  }

  ghost predicate CanRun(s: State, es: seq<Event>)
    requires Good(s)
    decreases |es|
  {
    es == [] || (Enabled(s, es[0]) && (NextKeeps(s, es[0]); CanRun(Next(s, es[0]), es[1..])))
  }

  ghost function After(s: State, es: seq<Event>): State
    requires Good(s) && CanRun(s, es)
    decreases |es|
  {
    if es == [] then s else
      NextKeeps(s, es[0]);
      After(Next(s, es[0]), es[1..])
  }

  /** The state before event `k` of a run, and that the assertions hold there. */
  ghost predicate NeverFails(s: State, es: seq<Event>)
    requires Good(s) && CanRun(s, es)
    decreases |es|
  {
    es == [] || (AssertionsHold(s, es[0]) && (NextKeeps(s, es[0]); NeverFails(Next(s, es[0]), es[1..])))
  }

  /** In every run, whatever comes in between, no assertion fails and the invariant holds at the end. */
  lemma {:induction false} EveryRun(s: State, es: seq<Event>)
    requires Good(s) && CanRun(s, es)
    ensures Good(After(s, es)) && NeverFails(s, es)
    decreases |es|
  {
    if es != [] {
      NextKeeps(s, es[0]);
      EveryRun(Next(s, es[0]), es[1..]);
    }
  }

  /** Only the idle process, and semaphores with their first permits. */
  function Boot(values: seq<nat>): State {
    State(map[IDLE := Proc(Runnable, NotWaiting, Outside, NotWaiting, 0, false)], IDLE, [],
          seq(|values|, k requires 0 <= k < |values| => Sem(values[k], [], Log(values[k], 0, 0, [], []))))
  }

  lemma BootGood(values: seq<nat>)
    ensures Good(Boot(values))
  {
    var s := Boot(values);
    assert ProcOk(s, IDLE, s.procs[IDLE]);
    forall k | 0 <= k < |s.sems| ensures SemOk(s, k) {
      assert s.sems[k].queue == [];
    }
  }

  // ---------- nobody is forgotten ----------

  /** Handed a permit in down, and not back yet. */
  predicate Granted(s: State, p: Pid, k: nat) {
    p in s.procs && k < |s.sems| && s.procs[p].place in {Blocking(k), Parked(k)} && p !in s.sems[k].queue
  }

  lemma GrantedRuns(s: State, p: Pid, k: nat)
    requires Good(s) && Granted(s, p, k)
    ensures s.procs[p].state == Runnable && s.procs[p].flags == KSem && (p == s.current || p in s.runQueue || p == IDLE)
  {
    assert ProcOk(s, p, s.procs[p]);
  }

  /** An up with somebody waiting hands the permit to the first, asleep or still on the way to schedule. */
  lemma UpGrants(s: State, k: nat)
    requires Good(s) && k < |s.sems| && s.sems[k].queue != []
    ensures forall p :: p in s.sems[k].queue ==> p in s.procs
    ensures Granted(Up(s, k), s.sems[k].queue[0], k)
    ensures Up(s, k).sems[k].queue == s.sems[k].queue[1..] && Up(s, k).sems[k].value == s.sems[k].value
  {
    UpKeeps(s, k);
    assert SemOk(s, k);
    FirstAndRest(s.sems[k].queue);
    var w := s.sems[k].queue[0];
    assert s.procs[w].place in {Blocking(k), Parked(k)};
  }

  /** The grant stays until the process itself leaves down: no other event takes it away. */
  lemma GrantStays(s: State, e: Event, p: Pid, k: nat)
    requires Good(s) && Enabled(s, e) && Granted(s, p, k) && !(e == DoLeave && s.current == p)
    ensures Granted(Next(s, e), p, k)
  {
    assert ProcOk(s, p, s.procs[p]);
    if e.DoUp? {
      UpKeeps(s, e.k);
      assert SemOk(s, e.k);
      if s.sems[e.k].queue != [] {
        FirstAndRest(s.sems[e.k].queue);
      }
    }
  }

  /** A queued process moves up with every schedule, until it runs; nothing else changes its position. */
  lemma MovesUp(s: State, e: Event, i: nat)
    requires Good(s) && Enabled(s, e) && i < |s.runQueue|
    ensures var t := Next(s, e);
      if e == DoSchedule then
        (if i == 0 then t.current == s.runQueue[0] else i <= |t.runQueue| && t.runQueue[i - 1] == s.runQueue[i])
      else i < |t.runQueue| && t.runQueue[i] == s.runQueue[i]
  {
    if e.DoUp? {
      UpKeeps(s, e.k);
    }
  }

  function Schedules(es: seq<Event>): nat {
    if es == [] then 0 else (if es[0] == DoSchedule then 1 else 0) + Schedules(es[1..])
  }

  /** In any run with enough schedules a queued process gets to run. */
  lemma {:induction false} GetsToRun(s: State, es: seq<Event>, i: nat) returns (n: nat)
    requires Good(s) && CanRun(s, es) && i < |s.runQueue| && Schedules(es) > i
    ensures n <= |es| && CanRun(s, es[..n]) && After(s, es[..n]).current == s.runQueue[i]
    decreases |es|
  {
    var e := es[0];
    NextKeeps(s, e);
    MovesUp(s, e, i);
    var t := Next(s, e);
    if e == DoSchedule && i == 0 {
      n := 1;
      assert es[..1] == [e];
      assert After(t, []) == t;
      assert [e][1..] == [];
      assert CanRun(t, []);
    } else {
      var m := GetsToRun(t, es[1..], if e == DoSchedule then i - 1 else i);
      n := m + 1;
      assert es[..n][1..] == es[1..][..m];
    }
  }
}
