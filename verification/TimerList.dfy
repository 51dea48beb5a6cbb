/** The delta list of timers (ucore/kern/schedule/sched.c): every timer holds its distance from the one before it. */
module TimerList {
  import opened Lists

  /** The address of a timer. */
  type Timer = nat

  // ---------- remaining ticks ----------

  /** The ticks until `t` expires: the sum of the distances up to it. */
  function Due(list: seq<Timer>, expires: map<Timer, nat>, t: Timer): nat
    requires t in list && forall u :: u in list ==> u in expires
  {
    if list[0] == t then expires[t] else expires[list[0]] + Due(list[1..], expires, t)
  }

  function Sum(list: seq<Timer>, expires: map<Timer, nat>): nat
    requires forall u :: u in list ==> u in expires
  {
    if list == [] then 0 else expires[list[0]] + Sum(list[1..], expires)
  }

  /** Linked once each, with a distance; the first one is not due already. */
  predicate ListOk(list: seq<Timer>, expires: map<Timer, nat>) {
    && Distinct(list) && (forall u :: u in list ==> u in expires)
    && (list != [] ==> expires[list[0]] > 0)
  }

  /** What the list means: the remaining ticks of every linked timer. */
  ghost function Pending(list: seq<Timer>, expires: map<Timer, nat>): (m: map<Timer, nat>)
    requires forall u :: u in list ==> u in expires
  {
    map t | t in list :: Due(list, expires, t)
  }

  lemma {:induction false} DueIn(a: seq<Timer>, b: seq<Timer>, expires: map<Timer, nat>, t: Timer)
    requires t in a + b && forall u :: u in a + b ==> u in expires
    ensures Due(a + b, expires, t)
         == if t in a then Due(a, expires, t) else Sum(a, expires) + Due(b, expires, t)
    decreases a
  {
    if a == [] {
      assert a + b == b;
    } else {
      assert (a + b)[1..] == a[1..] + b;
      if a[0] != t {
        DueIn(a[1..], b, expires, t);
      }
    }
  }

  lemma {:induction false} DueSame(list: seq<Timer>, e1: map<Timer, nat>, e2: map<Timer, nat>, t: Timer)
    requires t in list && forall u :: u in list ==> u in e1 && u in e2 && e1[u] == e2[u]
    ensures Due(list, e1, t) == Due(list, e2, t)
    decreases list
  {
    if list[0] != t {
      DueSame(list[1..], e1, e2, t);
    }
  }

  lemma {:induction false} SumSame(list: seq<Timer>, e1: map<Timer, nat>, e2: map<Timer, nat>)
    requires forall u :: u in list ==> u in e1 && u in e2 && e1[u] == e2[u]
    ensures Sum(list, e1) == Sum(list, e2)
    decreases list
  {
    if list != [] {
      SumSame(list[1..], e1, e2);
    }
  }

  /** A change of the first distance moves every timer behind it alike. */
  lemma ShiftHead(list: seq<Timer>, e1: map<Timer, nat>, e2: map<Timer, nat>, t: Timer)
    requires Distinct(list) && t in list && (forall u :: u in list ==> u in e1 && u in e2)
    requires forall u :: u in list[1..] ==> e1[u] == e2[u]
    ensures Due(list, e2, t) == Due(list, e1, t) - e1[list[0]] + e2[list[0]]
  {
    if list[0] != t {
      DueSame(list[1..], e1, e2, t);
    }
  }

  // ---------- adding ----------

  function Inserted(b: seq<Timer>, expires: map<Timer, nat>, t: Timer, left: nat): map<Timer, nat>
    requires b != [] ==> b[0] in expires && left <= expires[b[0]]
  {
    if b == [] then expires[t := left] else expires[b[0] := expires[b[0]] - left][t := left]
  }

  ghost predicate CanInsert(a: seq<Timer>, b: seq<Timer>, expires: map<Timer, nat>, t: Timer, left: nat) {
    && ListOk(a + b, expires) && t !in a && t !in b
    && (b != [] ==> b[0] in expires && left < expires[b[0]]) && (a == [] ==> left > 0)
  }

  lemma Parts(a: seq<Timer>, b: seq<Timer>, expires: map<Timer, nat>)
    requires ListOk(a + b, expires)
    ensures Distinct(a) && Distinct(b) && forall u :: u in a ==> u !in b
    ensures forall u :: u in a || u in b ==> u in expires
    ensures a != [] ==> expires[a[0]] > 0
  {
    forall u | u in a ensures u !in b && u in expires {
      var i :| 0 <= i < |a| && a[i] == u;
      assert (a + b)[i] == u && u in a + b;
      forall j | 0 <= j < |b| ensures b[j] != u {
        assert (a + b)[|a| + j] == b[j];
      }
    }
    forall u | u in b ensures u in expires {
      assert u in a + b;
    }
    forall i, j | 0 <= i < j < |b| ensures b[i] != b[j] {
      assert (a + b)[|a| + i] == b[i] && (a + b)[|a| + j] == b[j];
    }
    forall i, j | 0 <= i < j < |a| ensures a[i] != a[j] {
      assert (a + b)[i] == a[i] && (a + b)[j] == a[j];
    }
    if a != [] {
      assert (a + b)[0] == a[0];
    }
  }

  lemma InsertListOk(a: seq<Timer>, b: seq<Timer>, e1: map<Timer, nat>, t: Timer, left: nat)
    requires CanInsert(a, b, e1, t, left)
    ensures ListOk(a + [t] + b, Inserted(b, e1, t, left))
  {
    Parts(a, b, e1);
    JoinsUp(a, [t]);
    JoinsUp(a + [t], b);
    var e2 := Inserted(b, e1, t, left);
    var list := a + [t] + b;
    assert list[0] == if a == [] then t else a[0];
    assert a != [] ==> a[0] in a;
  }

  lemma JoinsUp(a: seq<Timer>, b: seq<Timer>)
    requires Distinct(a) && Distinct(b) && forall u :: u in a ==> u !in b
    ensures Distinct(a + b)
  {
    var c := a + b;
    forall i, j | 0 <= i < j < |c| ensures c[i] != c[j] {
      if i < |a| <= j {
        assert c[i] in a && c[j] in b;
      }
    }
  }

  lemma InsertDue(a: seq<Timer>, b: seq<Timer>, e1: map<Timer, nat>, t: Timer, left: nat, u: Timer)
    requires CanInsert(a, b, e1, t, left) && u in a + [t] + b
    ensures (forall x :: x in a + b ==> x in e1) && (u != t ==> u in a + b)
    ensures var e2 := Inserted(b, e1, t, left);
      && (forall x :: x in a + [t] + b ==> x in e2)
      && Due(a + [t] + b, e2, u) == if u == t then Sum(a, e1) + left else Due(a + b, e1, u)
  {
    Parts(a, b, e1);
    InsertListOk(a, b, e1, t, left);
    var e2 := Inserted(b, e1, t, left);
    assert a + [t] + b == a + ([t] + b);
    assert ([t] + b)[1..] == b;
    SumSame(a, e1, e2);
    DueIn(a, [t] + b, e2, u);
    if u in a {
      DueIn(a, b, e1, u);
      DueSame(a, e1, e2, u);
    } else if u != t {
      assert u in b;
      DueIn(a, b, e1, u);
      ShiftHead(b, e1, e2, u);
    }
  }

  lemma InsertFacts(a: seq<Timer>, b: seq<Timer>, e1: map<Timer, nat>, t: Timer, left: nat)
    requires CanInsert(a, b, e1, t, left)
    ensures (forall x :: x in a + b ==> x in e1) && forall x :: x in a ==> x in e1
    ensures t !in a + b && forall u :: u in a + [t] + b <==> u == t || u in a + b
  {
    Parts(a, b, e1);
  }

  /** A timer between those that are due no later and those that are due later. */
  lemma InsertKeeps(a: seq<Timer>, b: seq<Timer>, e1: map<Timer, nat>, t: Timer, left: nat)
    requires CanInsert(a, b, e1, t, left)
    ensures (forall x :: x in a + b ==> x in e1) && forall x :: x in a ==> x in e1
    ensures var e2 := Inserted(b, e1, t, left);
      ListOk(a + [t] + b, e2) && Pending(a + [t] + b, e2) == Pending(a + b, e1)[t := Sum(a, e1) + left]
  {
    InsertFacts(a, b, e1, t, left);
    InsertListOk(a, b, e1, t, left);
    hide ListOk, CanInsert, Due, Sum, Distinct, Inserted;
    var list := a + [t] + b;
    var e2 := Inserted(b, e1, t, left);
    forall u | u in list ensures u in e2 && (u != t ==> u in a + b)
        && Due(list, e2, u) == if u == t then Sum(a, e1) + left else Due(a + b, e1, u) {
      InsertDue(a, b, e1, t, left, u);
    }
    assert Pending(list, e2) == Pending(a + b, e1)[t := Sum(a, e1) + left];
  }

  // ---------- taking away ----------

  predicate Linked(list: seq<Timer>, expires: map<Timer, nat>) {
    Distinct(list) && forall u :: u in list ==> u in expires
  }

  function Removed(b: seq<Timer>, expires: map<Timer, nat>, t: Timer): map<Timer, nat>
    requires t in expires && (b != [] ==> b[0] in expires)
  {
    if b == [] then expires else expires[b[0] := expires[b[0]] + expires[t]]
  }

  lemma LinkedParts(a: seq<Timer>, t: Timer, b: seq<Timer>, e: map<Timer, nat>)
    requires Linked(a + [t] + b, e)
    ensures Linked(a, e) && Linked(b, e) && t in e && t !in a && t !in b && forall u :: u in a ==> u !in b
    ensures Linked(a + b, e) && forall u :: u in a + b <==> u in a + [t] + b && u != t
  {
    var list := a + [t] + b;
    assert list[|a|] == t;
    forall i | 0 <= i < |a| ensures a[i] in e && a[i] != t && a[i] !in b {
      assert list[i] == a[i];
      forall j | 0 <= j < |b| ensures b[j] != a[i] {
        assert list[|a| + 1 + j] == b[j];
      }
    }
    forall j | 0 <= j < |b| ensures b[j] in e && b[j] != t {
      assert list[|a| + 1 + j] == b[j];
    }
    forall i, j | 0 <= i < j < |b| ensures b[i] != b[j] {
      assert list[|a| + 1 + i] == b[i] && list[|a| + 1 + j] == b[j];
    }
    forall i, j | 0 <= i < j < |a| ensures a[i] != a[j] {
      assert list[i] == a[i] && list[j] == a[j];
    }
    JoinsUp(a, b);
  }

  /** The distance of a timer that goes is added to the next one. */
  lemma RemoveDue(a: seq<Timer>, t: Timer, b: seq<Timer>, e1: map<Timer, nat>, u: Timer)
    requires Linked(a + [t] + b, e1) && u in a + b
    ensures t in e1 && (b != [] ==> b[0] in e1) && u in a + [t] + b
    ensures var e2 := Removed(b, e1, t);
      Linked(a + b, e2) && Due(a + b, e2, u) == Due(a + [t] + b, e1, u)
  {
    LinkedParts(a, t, b, e1);
    var e2 := Removed(b, e1, t);
    assert a + [t] + b == a + ([t] + b);
    assert ([t] + b)[1..] == b;
    DueIn(a, b, e2, u);
    DueIn(a, [t] + b, e1, u);
    SumSame(a, e1, e2);
    if u in a {
      DueSame(a, e1, e2, u);
    } else {
      ShiftHead(b, e1, e2, u);
    }
  }

  lemma RemoveKeeps(a: seq<Timer>, t: Timer, b: seq<Timer>, e1: map<Timer, nat>)
    requires ListOk(a + [t] + b, e1)
    ensures t in e1 && (b != [] ==> b[0] in e1)
    ensures var e2 := Removed(b, e1, t);
      ListOk(a + b, e2) && Pending(a + b, e2) == Pending(a + [t] + b, e1) - {t}
  {
    LinkedParts(a, t, b, e1);
    HeadAfter(a, t, b, e1);
    hide ListOk, Distinct, Due, Removed;
    var list, e2 := a + b, Removed(b, e1, t);
    forall u | u in list ensures u in e2 && Due(list, e2, u) == Due(a + [t] + b, e1, u) {
      RemoveDue(a, t, b, e1, u);
    }
    assert Pending(list, e2) == Pending(a + [t] + b, e1) - {t};
  }

  lemma HeadAfter(a: seq<Timer>, t: Timer, b: seq<Timer>, e1: map<Timer, nat>)
    requires ListOk(a + [t] + b, e1) && t in e1 && (b != [] ==> b[0] in e1) && Linked(a + b, e1) && t !in a && t !in b
    requires forall u :: u in a ==> u !in b
    ensures ListOk(a + b, Removed(b, e1, t))
  {
    if a == [] {
      assert (a + [t] + b)[0] == t;
    } else {
      assert (a + [t] + b)[0] == a[0] && a[0] in a && (a + b)[0] == a[0];
    }
  }

  // ---------- a tick ----------

  /** One tick less for everyone; who has none left is gone. */
  function Later(m: map<Timer, nat>): map<Timer, nat> {
    map t | t in m && m[t] > 1 :: m[t] - 1
  }

  /** During a tick: `gone` have expired, `rest` are still linked, with distances `e`. */
  ghost predicate Ticking(m: map<Timer, nat>, gone: seq<Timer>, rest: seq<Timer>, e: map<Timer, nat>) {
    && Linked(rest, e) && (forall t :: t in m <==> t in gone || t in rest)
    && (forall t :: t in gone ==> t !in rest && m[t] == 1)
    && (forall t :: t in rest ==> m[t] == Due(rest, e, t) + 1)
  }

  lemma NothingTicks(e: map<Timer, nat>)
    ensures ListOk([], e) && Pending([], e) == map[] == Later(map[])
  {
  }

  lemma TickStarts(list: seq<Timer>, e: map<Timer, nat>)
    requires ListOk(list, e) && list != []
    ensures list[0] in e && e[list[0]] > 0
    ensures Ticking(Pending(list, e), [], list, e[list[0] := e[list[0]] - 1])
  {
    var e2 := e[list[0] := e[list[0]] - 1];
    assert forall u :: u in list[1..] ==> u != list[0];
    forall t | t in list ensures Due(list, e, t) == Due(list, e2, t) + 1 {
      ShiftHead(list, e, e2, t);
    }
  }

  lemma TickGoesOn(m: map<Timer, nat>, gone: seq<Timer>, rest: seq<Timer>, e: map<Timer, nat>)
    requires Ticking(m, gone, rest, e) && rest != [] && rest[0] in e && e[rest[0]] == 0
    ensures Ticking(m, gone + [rest[0]], rest[1..], e) && (rest[1..] != [] ==> rest[1] in e)
  {
    var t := rest[0];
    assert rest == [t] + rest[1..];
    assert t !in rest[1..];
    forall u | u in rest[1..] ensures u != t && Due(rest, e, u) == Due(rest[1..], e, u) {
    }
  }

  lemma TickEnds(m: map<Timer, nat>, gone: seq<Timer>, rest: seq<Timer>, e: map<Timer, nat>)
    requires Ticking(m, gone, rest, e) && (rest != [] ==> rest[0] in e && e[rest[0]] > 0)
    ensures ListOk(rest, e) && Pending(rest, e) == Later(m)
    ensures forall t :: t in gone <==> t in m && m[t] == 1
  {
    forall t | t in rest ensures Due(rest, e, t) > 0 {
      DuePositive(rest, e, t);
    }
  }

  lemma DuePositive(list: seq<Timer>, e: map<Timer, nat>, t: Timer)
    requires Linked(list, e) && t in list && e[list[0]] > 0
    ensures Due(list, e, t) > 0
  {
  }

  lemma LinkedOnly(list: seq<Timer>, e: map<Timer, nat>)
    requires ListOk(list, e)
    ensures (forall u :: u in list ==> u in e) && forall u :: u in Pending(list, e) <==> u in list
  {
  }

  lemma MayInsert(a: seq<Timer>, b: seq<Timer>, e: map<Timer, nat>, t: Timer, left: nat)
    requires ListOk(a + b, e) && t !in a + b && (b != [] ==> b[0] in e && left < e[b[0]]) && (a == [] ==> left > 0)
    ensures CanInsert(a, b, e, t, left)
  {
  }

  // ---------- the list as it runs ----------

  class TimerQueue {
    var timerList: seq<Timer>
    var expires: map<Timer, nat>   // timer->expires

    ghost predicate Valid()
      reads this
    {
      ListOk(timerList, expires)
    }

    /** The ticks that every linked timer still has. */
    ghost function Deadlines(): map<Timer, nat>
      requires Valid()
      reads this
    {
      Pending(timerList, expires)
    }

    constructor ()
      ensures Valid() && Deadlines() == map[]
    {
      timerList, expires := [], map[];
    }

    /** add_timer: a timer that is not linked expires after `ticks` ticks, and all others as before. */
    method AddTimer(timer: Timer, ticks: nat)
      requires Valid() && timer !in timerList && ticks > 0
      modifies this
      ensures Valid() && Deadlines() == old(Deadlines())[timer := ticks]
      ensures exists i :: 0 <= i <= |old(timerList)| && timerList == old(timerList)[..i] + [timer] + old(timerList)[i..]
    {
      hide ListOk, Pending, Distinct, Due;
      LinkedOnly(timerList, expires);
      var left: nat := ticks;
      var i := 0;
      while i < |timerList| && left >= expires[timerList[i]]
        invariant 0 <= i <= |timerList| && timerList == old(timerList) && expires == old(expires)
        invariant forall u :: u in timerList[..i] ==> u in expires
        invariant ticks == Sum(timerList[..i], expires) + left && (i == 0 ==> left > 0)
      {
        SumLast(timerList[..i], timerList[i], expires);
        assert timerList[..i + 1] == timerList[..i] + [timerList[i]];
        left := left - expires[timerList[i]];
        i := i + 1;
      }
      ghost var a, b := timerList[..i], timerList[i..];
      assert timerList == a + b;
      MayInsert(a, b, expires, timer, left);
      InsertKeeps(a, b, expires, timer, left);
      if i < |timerList| {
        expires := expires[timerList[i] := expires[timerList[i]] - left];
      }
      expires := expires[timer := left];
      timerList := timerList[..i] + [timer] + timerList[i..];
    }

    /** del_timer: the timer is not linked any more, and all others expire as before. */
    method DelTimer(timer: Timer)
      requires Valid()
      modifies this
      ensures Valid() && Deadlines() == old(Deadlines()) - {timer}
    {
      hide ListOk, Pending, Distinct, Due;
      LinkedOnly(timerList, expires);
      if timer in timerList {
        var i := IndexOf(timer);
        var a, b := timerList[..i], timerList[i + 1..];
        assert timerList == a + [timer] + b;
        RemoveKeeps(a, timer, b, expires);
        assert expires[timer] == 0 ==> Removed(b, expires, timer) == expires;
        if expires[timer] != 0 {
          if b != [] {
            expires := expires[b[0] := expires[b[0]] + expires[timer]];
          }
        }
        timerList := a + b;
      } else {
        assert Pending(timerList, expires) - {timer} == Pending(timerList, expires);
      }
    }

    method IndexOf(timer: Timer) returns (i: nat)
      requires timer in timerList
      ensures i < |timerList| && timerList[i] == timer
    {
      i := 0;
      while timerList[i] != timer
        invariant 0 <= i < |timerList| && timer in timerList[i..]
        decreases |timerList| - i
      {
        assert timerList[i..] == [timerList[i]] + timerList[i + 1..];
        i := i + 1;
      }
    }

    /** run_timer_list: a tick. Exactly the timers with one tick left expire; they wake their processes. */
    method RunTimerList() returns (expired: seq<Timer>)
      requires Valid()
      modifies this
      ensures Valid() && Deadlines() == Later(old(Deadlines()))
      ensures forall t :: t in expired <==> t in old(Deadlines()) && old(Deadlines())[t] == 1
      ensures old(timerList) == expired + timerList
    {
      hide Ticking, Pending, Due, Later, ListOk;
      expired := [];
      if timerList == [] {
        NothingTicks(expires);
        return;
      }
      ghost var m := Deadlines();
      var timer := timerList[0];
      TickStarts(timerList, expires);
      assert expires[timer] != 0;   // the assertion in the source
      expires := expires[timer := expires[timer] - 1];
      while timerList != [] && expires[timerList[0]] == 0
        invariant Ticking(m, expired, timerList, expires) && old(timerList) == expired + timerList
        invariant timerList != [] ==> timerList[0] in expires
        decreases |timerList|
      {
        TickGoesOn(m, expired, timerList, expires);
        expired := expired + [timerList[0]];
        timerList := timerList[1..];
      }
      TickEnds(m, expired, timerList, expires);
    }
  }

  lemma {:induction false} SumLast(a: seq<Timer>, t: Timer, e: map<Timer, nat>)
    requires t in e && forall u :: u in a ==> u in e
    ensures Sum(a + [t], e) == Sum(a, e) + e[t]
    decreases a
  {
    if a == [] {
      assert [] + [t] == [t];
    } else {
      assert (a + [t])[1..] == a[1..] + [t];
      SumLast(a[1..], t, e);
    }
  }

  // ---------- every run ----------

  datatype Op = Add(timer: Timer, ticks: nat) | Del(timer: Timer) | Tick

  function Apply(m: map<Timer, nat>, op: Op): map<Timer, nat> {
    match op
    case Add(t, n) => m[t := n]
    case Del(t) => m - {t}
    case Tick => Later(m)
  }

  function ApplyAll(m: map<Timer, nat>, ops: seq<Op>): map<Timer, nat>
    decreases |ops|
  {
    if ops == [] then m else ApplyAll(Apply(m, ops[0]), ops[1..])
  }

  function Ticks(ops: seq<Op>): nat {
    if ops == [] then 0 else (if ops[0].Tick? then 1 else 0) + Ticks(ops[1..])
  }

  /** In any run, a timer that is left alone is pending until the last of its ticks, and expires with that tick. */
  lemma {:induction false} ExpiresOnTime(m: map<Timer, nat>, ops: seq<Op>, t: Timer)
    requires t in m && m[t] > 0 && forall i :: 0 <= i < |ops| ==> ops[i] == Tick || ops[i].timer != t
    ensures Ticks(ops) < m[t] ==> t in ApplyAll(m, ops) && ApplyAll(m, ops)[t] == m[t] - Ticks(ops)
    ensures Ticks(ops) >= m[t] ==> t !in ApplyAll(m, ops)
    decreases ops
  {
    if ops != [] {
      var m2 := Apply(m, ops[0]);
      if t in m2 {
        ExpiresOnTime(m2, ops[1..], t);
      } else {
        StaysAway(m2, ops[1..], t);
      }
    }
  }

  lemma {:induction false} StaysAway(m: map<Timer, nat>, ops: seq<Op>, t: Timer)
    requires t !in m && forall i :: 0 <= i < |ops| ==> ops[i] == Tick || ops[i].timer != t
    ensures t !in ApplyAll(m, ops)
    decreases ops
  {
    if ops != [] {
      StaysAway(Apply(m, ops[0]), ops[1..], t);
    }
  }
}
