/** `barrier_wait` (Homework5/hw5.c) for any number of threads: a counter under a mutex, one
    condition variable, and a wait that is not in a loop. */
module Barrier {
  import opened Sums

  /** Where one thread is: before the barrier, blocked on its mutex, holding it after line 170,
      asleep in the wait, woken and blocked on the mutex again, holding it before line 179, out. */
  datatype Pc = Outside | Enter | Inside | Waiting | Woken | Leaving | Exited

  /** `holder` is the thread that owns `barrier_mutex`, or -1. */
  datatype Barrier = Barrier(pcs: seq<Pc>, holder: int, count: int)

  const FREE := -1

  datatype Action =
    | Lock
    | Come
    | Leave
    | Spurious

  function Start(threads: nat): Barrier {
    Barrier(seq(threads, _ => Outside), FREE, 0)
  }

  function Wake(pcs: seq<Pc>): (r: seq<Pc>)
    ensures |r| == |pcs|
    ensures forall i :: 0 <= i < |pcs| ==> r[i] == if pcs[i].Waiting? then Woken else pcs[i]
  {
    seq(|pcs|, i requires 0 <= i < |pcs| => if pcs[i].Waiting? then Woken else pcs[i])
  }

  predicate Guard(b: Barrier, t: int, a: Action) {
    && 0 <= t < |b.pcs|
    && match a
       case Lock => b.holder == FREE && (b.pcs[t].Enter? || b.pcs[t].Woken?)
       case Come => b.pcs[t].Inside?
       case Leave => b.pcs[t].Leaving?
       case Spurious => b.pcs[t].Waiting?
  }

  function Effect(b: Barrier, t: int, a: Action): Barrier
    requires Guard(b, t, a)
  {
    match a
    case Lock =>
      b.(pcs := b.pcs[t := if b.pcs[t].Enter? then Inside else Leaving], holder := t)
    case Come =>
      if b.count + 1 == |b.pcs| then
        b.(pcs := Wake(b.pcs)[t := Leaving], count := 0)
      else
        b.(pcs := b.pcs[t := Waiting], count := b.count + 1, holder := FREE)
    case Leave =>
      b.(pcs := b.pcs[t := Exited], holder := FREE)
    case Spurious =>
      b.(pcs := b.pcs[t := Woken])
  }

  function Arrive(b: Barrier, t: int): Barrier {
    if 0 <= t < |b.pcs| then b.(pcs := b.pcs[t := Enter]) else b
  }

  // ---------- invariants ----------

  predicate HasEntered(p: Pc) {
    p.Waiting? || p.Woken? || p.Leaving? || p.Exited?
  }

  function One(p: Pc): nat {
    if HasEntered(p) then 1 else 0
  }

  function Entered(b: Barrier): nat {
    SumOf(One, b.pcs)
  }

  predicate AllEntered(b: Barrier) {
    forall t :: 0 <= t < |b.pcs| ==> HasEntered(b.pcs[t])
  }

  predicate AllExited(b: Barrier) {
    forall t :: 0 <= t < |b.pcs| ==> b.pcs[t].Exited?
  }

  /** Holds in every reachable state, spurious wakeups included. */
  ghost predicate Inv(b: Barrier) {
    && 1 <= |b.pcs|
    && -1 <= b.holder < |b.pcs|
    && (forall t :: 0 <= t < |b.pcs| ==> ((b.pcs[t].Inside? || b.pcs[t].Leaving?) <==> b.holder == t))
    && (Entered(b) < |b.pcs| ==> b.count == Entered(b))
    && (Entered(b) == |b.pcs| ==> b.count == 0 && forall t :: 0 <= t < |b.pcs| ==> !b.pcs[t].Waiting?)
  }

  /** No thread is past its wait while another has still to enter. */
  ghost predicate Closed(b: Barrier) {
    forall t :: 0 <= t < |b.pcs| && (b.pcs[t].Woken? || b.pcs[t].Leaving? || b.pcs[t].Exited?) ==> AllEntered(b)
  }

  lemma EnteredAll(b: Barrier)
    ensures Entered(b) <= |b.pcs|
    ensures Entered(b) == |b.pcs| <==> AllEntered(b)
  {
    SumBound(One, b.pcs, 1);
    if Entered(b) == |b.pcs| {
      forall t | 0 <= t < |b.pcs| ensures HasEntered(b.pcs[t]) { SumFull(One, b.pcs, t); }
    }
    if AllEntered(b) {
      FullSum(b.pcs);
    }
  }

  lemma {:induction false} FullSum(pcs: seq<Pc>)
    requires forall t :: 0 <= t < |pcs| ==> HasEntered(pcs[t])
    ensures SumOf(One, pcs) == |pcs|
  {
    if pcs != [] { FullSum(pcs[1..]); }
  }

  lemma {:induction false} NoneEntered(pcs: seq<Pc>)
    requires forall t :: 0 <= t < |pcs| ==> pcs[t].Outside?
    ensures SumOf(One, pcs) == 0
  {
    if pcs != [] { NoneEntered(pcs[1..]); }
  }

  lemma StartInv(threads: nat)
    requires 1 <= threads
    ensures Inv(Start(threads)) && Closed(Start(threads))
  {
    NoneEntered(Start(threads).pcs);
  }

  lemma ArriveInv(b: Barrier, t: int)
    requires Inv(b) && 0 <= t < |b.pcs| && b.pcs[t].Outside?
    ensures Inv(Arrive(b, t)) && (Closed(b) ==> Closed(Arrive(b, t)))
  {
    SumUpdate(One, b.pcs, t, Enter);
    EnteredAll(b);
    EnteredAll(Arrive(b, t));
  }

  lemma StepInv(b: Barrier, t: int, a: Action)
    requires Inv(b) && Guard(b, t, a)
    ensures Inv(Effect(b, t, a))
  {
    var b' := Effect(b, t, a);
    EnteredAll(b);
    if a.Come? && b.count + 1 == |b.pcs| {
      var w := Wake(b.pcs);
      SumSame(One, b.pcs, One, w);
      SumUpdate(One, w, t, Leaving);
    } else {
      SumUpdate(One, b.pcs, t, b'.pcs[t]);
    }
    EnteredAll(b');
  }

  /** Without spurious wakeups nobody gets past the wait before everyone has entered. */
  lemma StepClosed(b: Barrier, t: int, a: Action)
    requires Inv(b) && Closed(b) && Guard(b, t, a) && !a.Spurious?
    ensures Closed(Effect(b, t, a))
  {
    var b' := Effect(b, t, a);
    StepInv(b, t, a);
    EnteredAll(b);
    EnteredAll(b');
    if a.Come? {
      if b.count + 1 == |b.pcs| {
        var w := Wake(b.pcs);
        SumSame(One, b.pcs, One, w);
        SumUpdate(One, w, t, Leaving);
      } else {
        SumUpdate(One, b.pcs, t, Waiting);
      }
    }
  }

  /** And a spurious wakeup is exactly what it takes: from a state in which nobody is past the wait
      too early, a step leads to one in which somebody is if and only if it is one. */
  lemma ClosedExactly(b: Barrier, t: int, a: Action)
    requires Inv(b) && Closed(b) && Guard(b, t, a)
    ensures Closed(Effect(b, t, a)) <==> !a.Spurious?
  {
    if a.Spurious? {
      EnteredAll(b);
      var b' := Effect(b, t, a);
      var u :| 0 <= u < |b.pcs| && !HasEntered(b.pcs[u]);
      assert b'.pcs[t].Woken? && !HasEntered(b'.pcs[u]);
    } else {
      StepClosed(b, t, a);
    }
  }

  /** Once everyone has arrived, some thread can move until all are out. */
  lemma Progress(b: Barrier) returns (t: int, a: Action)
    requires Inv(b) && !AllExited(b)
    requires forall i :: 0 <= i < |b.pcs| ==> !b.pcs[i].Outside?
    ensures Guard(b, t, a) && !a.Spurious?
  {
    if b.holder != FREE {
      t := b.holder;
      a := if b.pcs[t].Inside? then Come else Leave;
    } else if i :| 0 <= i < |b.pcs| && (b.pcs[i].Enter? || b.pcs[i].Woken?) {
      t, a := i, Lock;
    } else {
      EnteredAll(b);
      assert AllEntered(b);
      t, a := 0, Lock;
      assert false;
    }
  }

  /** While another thread is still to enter, one that comes to the barrier has to wait. */
  lemma NotTheLast(b: Barrier, t: int, u: int)
    requires Inv(b) && 0 <= t < |b.pcs| && 0 <= u < |b.pcs| && t != u
    requires b.pcs[t].Inside? && !HasEntered(b.pcs[u])
    ensures b.count + 1 < |b.pcs|
  {
    var w := b.(pcs := b.pcs[t := Waiting]);
    SumUpdate(One, b.pcs, t, Waiting);
    EnteredAll(w);
    EnteredAll(b);
    assert !HasEntered(w.pcs[u]) && !HasEntered(b.pcs[u]);
  }

  // ---------- past the barrier alone ----------

  /** Thread `t` takes these steps from `b`, and nobody else moves. */
  ghost predicate Alone(b: Barrier, t: int, acts: seq<Action>, b': Barrier)
    decreases |acts|
  {
    if acts == [] then b' == b else Guard(b, t, acts[0]) && Alone(Effect(b, t, acts[0]), t, acts[1..], b')
  }

  const WOKEN_ALONE := [Lock, Come, Spurious, Lock, Leave]

  ghost predicate AllAtDoor(b: Barrier) {
    b.holder == FREE && forall t :: 0 <= t < |b.pcs| ==> b.pcs[t].Enter?
  }

  /** With one spurious wakeup any thread gets through before any other has entered. */
  lemma LeavesAlone(b: Barrier, t: int) returns (b': Barrier)
    requires Inv(b) && AllAtDoor(b) && 2 <= |b.pcs| && 0 <= t < |b.pcs|
    ensures Alone(b, t, WOKEN_ALONE, b') && b'.pcs == b.pcs[t := Exited]
  {
    var b1 := Effect(b, t, Lock);
    StepInv(b, t, Lock);
    NotTheLast(b1, t, if t == 0 then 1 else 0);
    var b2 := Effect(b1, t, Come);
    b' := WokenLeaves(b2, t);
    assert WOKEN_ALONE[1..] == [Come, Spurious, Lock, Leave] && [Come, Spurious, Lock, Leave][1..] == [Spurious, Lock, Leave];
  }

  lemma WokenLeaves(b: Barrier, t: int) returns (b': Barrier)
    requires 0 <= t < |b.pcs| && b.pcs[t].Waiting? && b.holder == FREE
    ensures Alone(b, t, [Spurious, Lock, Leave], b') && b'.pcs == b.pcs[t := Exited]
  {
    var b1 := Effect(b, t, Spurious);
    var b2 := Effect(b1, t, Lock);
    b' := Effect(b2, t, Leave);
    assert [Spurious, Lock, Leave][1..] == [Lock, Leave] && [Lock, Leave][1..] == [Leave] && [Leave][1..] == [];
  }

  // ---------- every step is progress ----------

  function Rank(p: Pc): nat {
    match p
    case Outside => 6
    case Enter => 5
    case Inside => 4
    case Waiting => 3
    case Woken => 2
    case Leaving => 1
    case Exited => 0
  }

  function Work(b: Barrier): nat {
    SumOf(Rank, b.pcs)
  }

  lemma StepWork(b: Barrier, t: int, a: Action)
    requires Guard(b, t, a)
    ensures Work(Effect(b, t, a)) < Work(b)
  {
    var b' := Effect(b, t, a);
    if a.Come? && b.count + 1 == |b.pcs| {
      var w := Wake(b.pcs);
      SumWithin(Rank, w, b.pcs, 0);
      SumUpdate(Rank, w, t, Leaving);
    } else {
      SumUpdate(Rank, b.pcs, t, b'.pcs[t]);
    }
  }

  lemma ArriveWork(b: Barrier, t: int)
    requires 0 <= t < |b.pcs| && b.pcs[t].Outside?
    ensures Work(Arrive(b, t)) + 1 == Work(b)
  {
    SumUpdate(Rank, b.pcs, t, Enter);
  }
}
