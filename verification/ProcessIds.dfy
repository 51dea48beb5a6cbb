/** Process identifiers: get_pid of ucore/kern/process/proc.c, with processes that come and go. */
module ProcessIds {
  import opened Lists

  const MAX_PROCESS := 4096
  const MAX_PID := MAX_PROCESS * 2

  function Range(a: int, b: int): (r: set<int>)
    ensures forall x :: x in r <==> a <= x < b
  {
    set x: int | a <= x < b && Any(x)
  }

  predicate Any(x: int) { true }

  lemma {:induction false} RangeSize(a: int, b: int)
    requires a <= b
    ensures |Range(a, b)| == b - a
    decreases b - a
  {
    if a == b {
      assert Range(a, b) == {};
    } else {
      RangeSize(a, b - 1);
      assert Range(a, b) == Range(a, b - 1) + {b - 1};
    }
  }

  /** No live process has a number strictly between the two. */
  predicate SafeBetween(pids: seq<int>, last: int, next: int) {
    forall p :: p in pids ==> !(last < p < next)
  }

  predicate TableOk(pids: seq<int>, last: int, next: int) {
    && Distinct(pids) && |pids| < MAX_PROCESS && (forall p :: p in pids ==> 1 <= p < MAX_PID)
    && 1 <= last <= MAX_PID && next <= MAX_PID && SafeBetween(pids, last, next)
  }

  // ---------- the search does not go round ----------

  /** The candidates refused since the search began at `start`, going up and once round. */
  function Refused(start: int, cur: int, wrapped: bool): set<int> {
    if wrapped then Range(start, MAX_PID) + Range(1, cur) else Range(start, cur)
  }

  function Candidates(start: int, cur: int, wrapped: bool): int {
    if wrapped then start - cur else MAX_PID - cur + start
  }

  ghost predicate Searching(pids: seq<int>, start: int, cur: int, wrapped: bool) {
    && 1 <= start < MAX_PID && 1 <= cur < MAX_PID && |pids| < MAX_PROCESS
    && (wrapped ==> cur <= start) && (!wrapped ==> start <= cur)
    && forall x :: x in Refused(start, cur, wrapped) ==> x in pids
  }

  lemma {:induction false} AsManyAsLive(S: set<int>, pids: seq<int>)
    requires forall x :: x in S ==> x in pids
    ensures |S| <= |pids|
    decreases pids
  {
    if pids == [] {
      forall x ensures x !in S {
        assert x in S ==> x in pids;
      }
      assert S == {};
    } else {
      AsManyAsLive(S - {pids[0]}, pids[1..]);
      assert S <= (S - {pids[0]}) + {pids[0]};
    }
  }

  /** There are fewer processes than numbers, so a number that is refused is followed by one not refused yet. */
  lemma NextCandidate(pids: seq<int>, start: int, cur: int, wrapped: bool)
    requires Searching(pids, start, cur, wrapped) && cur in pids
    ensures cur + 1 < MAX_PID ==>
              Searching(pids, start, cur + 1, wrapped)
              && Candidates(start, cur + 1, wrapped) < Candidates(start, cur, wrapped)
    ensures cur + 1 == MAX_PID ==>
              !wrapped && Searching(pids, start, 1, true) && Candidates(start, 1, true) < Candidates(start, cur, wrapped)
    ensures 0 <= Candidates(start, cur, wrapped)
  {
    if wrapped && cur == start {
      RangeSize(1, MAX_PID);
      assert Range(1, MAX_PID) == Refused(start, cur, wrapped);
      AsManyAsLive(Range(1, MAX_PID), pids);
    }
  }

  /** The number behind `last`, and the numbers from `first` up to `pid`, where 1 comes behind the largest. */
  function Following(last: int): int {
    if last + 1 >= MAX_PID then 1 else last + 1
  }

  function Skipped(first: int, pid: int): set<int> {
    if first <= pid then Range(first, pid) else Range(first, MAX_PID) + Range(1, pid)
  }

  // ---------- the table as it runs ----------

  class ProcTable {
    var pids: seq<int>      // the processes on proc_list; the idle process is not on it
    var lastPid: int
    var nextSafe: int

    ghost predicate Valid()
      reads this
    {
      TableOk(pids, lastPid, nextSafe)
    }

    constructor ()
      ensures Valid() && pids == []
    {
      pids, lastPid, nextSafe := [], MAX_PID, MAX_PID;
    }

    /** The first number behind the last one that no process has: all that are skipped are in use. */
    method GetPid() returns (pid: int)
      requires Valid()
      modifies this`lastPid, this`nextSafe
      ensures Valid() && pid == lastPid && 1 <= pid < MAX_PID && pid !in pids && pid < nextSafe
      ensures forall x :: x in Skipped(Following(old(lastPid)), pid) ==> x in pids
    {
      lastPid := lastPid + 1;
      var inside := lastPid >= MAX_PID;
      if inside {
        lastPid := 1;
      }
      if inside || lastPid >= nextSafe {
        ghost var start, wrapped := lastPid, false;
        var repeat := true;
        while repeat
          invariant TableOk(pids, lastPid, if repeat then 0 else nextSafe) && Searching(pids, start, lastPid, wrapped)
          invariant !repeat ==> lastPid !in pids && lastPid < nextSafe <= MAX_PID
          decreases Candidates(start, lastPid, wrapped), repeat
        {
          repeat := false;
          nextSafe := MAX_PID;
          ghost var before := Candidates(start, lastPid, wrapped);
          var i := 0;
          while i < |pids| && !repeat
            invariant 0 <= i <= |pids| && Searching(pids, start, lastPid, wrapped) && lastPid < nextSafe <= MAX_PID
            invariant !repeat ==> forall j :: 0 <= j < i ==> Passed(pids[j], lastPid, nextSafe)
            invariant Candidates(start, lastPid, wrapped) <= before
            invariant repeat ==> Candidates(start, lastPid, wrapped) < before
            decreases |pids| - i, !repeat
          {
            if pids[i] == lastPid {
              NextCandidate(pids, start, lastPid, wrapped);
              lastPid := lastPid + 1;
              if lastPid >= nextSafe {
                if lastPid >= MAX_PID {
                  lastPid, wrapped := 1, true;
                }
                nextSafe := MAX_PID;
                repeat := true;
              }
            } else if pids[i] > lastPid && nextSafe > pids[i] {
              nextSafe := pids[i];
            }
            i := i + 1;
          }
        }
      }
      pid := lastPid;
    }

    /**
     * do_fork, as far as numbers go: at most MAX_PROCESS processes, the idle process counted. `noMem` says that there
     * is no memory for the process, its stack or its address space, all of which come before its number.
     */
    method Fork(noMem: bool) returns (pid: Option<int>)
      requires Valid()
      modifies this
      ensures Valid() && (pid.None? <==> noMem || |old(pids)| + 1 >= MAX_PROCESS)
      ensures pid.None? ==> pids == old(pids) && lastPid == old(lastPid) && nextSafe == old(nextSafe)
      ensures pid.Some? ==> 1 <= pid.value < MAX_PID && pid.value !in old(pids) && pids == [pid.value] + old(pids)
      ensures pid.Some? ==> forall x :: x in Skipped(Following(old(lastPid)), pid.value) ==> x in old(pids)
      ensures pid.Some? ==> lastPid == pid.value
    {
      if |pids| + 1 >= MAX_PROCESS || noMem {
        return None;
      }
      var p := GetPid();
      pids := [p] + pids;
      pid := Some(p);
    }

    /** remove_links: the process at position `k` of the list is gone. */
    method Remove(k: nat)
      requires Valid() && k < |pids|
      modifies this`pids
      ensures Valid() && pids == old(pids)[..k] + old(pids)[k + 1..]
    {
      RemoveOk(pids, k, lastPid, nextSafe);
      pids := pids[..k] + pids[k + 1..];
    }
  }

  /** A process seen in the scan: not the candidate, and not between it and the safe bound. */
  predicate Passed(p: int, last: int, next: int) {
    p != last && (p > last ==> next <= p)
  }

  lemma RemoveOk(pids: seq<int>, k: nat, last: int, next: int)
    requires TableOk(pids, last, next) && k < |pids|
    ensures TableOk(pids[..k] + pids[k + 1..], last, next)
  {
    var rest := pids[..k] + pids[k + 1..];
    forall p | p in rest ensures p in pids {
    }
    forall i, j | 0 <= i < j < |rest| ensures rest[i] != rest[j] {
      var a := if i < k then i else i + 1;
      var b := if j < k then j else j + 1;
      assert rest[i] == pids[a] && rest[j] == pids[b];
    }
  }
}
