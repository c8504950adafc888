/** What the barrier at the end of the copier promises, and what it takes to break the promise: the
    wait in `barrier_wait` is under an `if`, and POSIX.1 lets it return without a signal. */
module CopierBarrier {
  import opened Ring
  import opened Copier
  import opened CopierControl
  import opened CopierMain
  import opened CopierTermination
  import Barrier

  /** A return from the barrier's wait that no broadcast caused. */
  predicate BarrierWakeup(a: Action) {
    a.AtBar? && a.b.Spurious?
  }

  predicate NoBarrierWakeup(acts: seq<Action>) {
    forall k :: 0 <= k < |acts| ==> !BarrierWakeup(acts[k])
  }

  /** In every state of the run nobody is past the barrier's wait while somebody has still to enter
      the barrier. */
  ghost predicate ClosedThroughout(c: Config, s: State, acts: seq<Action>, t: State)
    requires Run(c, s, acts, t)
    decreases |acts|
  {
    Barrier.Closed(s.bar) && (acts != [] ==> ClosedThroughout(c, Effect(c, s, acts[0]), acts[1..], t))
  }

  predicate Arrives(a: Action) { a.SetDone? || a.Finish? }

  lemma OtherSteps(c: Config, s: State, a: Action)
    requires Control(c, s) && Guard(c, s, a) && !a.AtBar? && !Arrives(a)
    ensures Effect(c, s, a).bar == s.bar
  {
  }

  lemma ArrivingStep(c: Config, s: State, a: Action) returns (t: nat)
    requires Control(c, s) && Guard(c, s, a) && Arrives(a)
    ensures t < |s.bar.pcs| && s.bar.pcs[t].Outside? && Effect(c, s, a).bar == Barrier.Arrive(s.bar, t)
  {
    t := if a.SetDone? then |s.ws| else a.i;
  }

  /** One step leads past the barrier too early exactly if it is a spurious return of its wait. */
  lemma StepClosedExactly(c: Config, s: State, a: Action)
    requires Control(c, s) && Barrier.Closed(s.bar) && Guard(c, s, a)
    ensures Barrier.Closed(Effect(c, s, a).bar) <==> !BarrierWakeup(a)
  {
    if a.AtBar? {
      Barrier.ClosedExactly(s.bar, a.t, a.b);
    } else if Arrives(a) {
      var t := ArrivingStep(c, s, a);
      Barrier.ArriveInv(s.bar, t);
    } else {
      OtherSteps(c, s, a);
    }
  }

  lemma {:induction false} RunClosedExactly(c: Config, s: State, acts: seq<Action>, t: State)
    requires Inv(c, s) && Barrier.Closed(s.bar) && Run(c, s, acts, t)
    ensures ClosedThroughout(c, s, acts, t) <==> NoBarrierWakeup(acts)
    ensures ClosedThroughout(c, s, acts, t) ==> Barrier.Closed(t.bar)
    decreases |acts|
  {
    if acts != [] {
      var m := InvClosedStep(c, s, acts[0]);
      NoWakeupFirst(acts);
      if !BarrierWakeup(acts[0]) {
        RunClosedExactly(c, m, acts[1..], t);
      }
    }
  }

  lemma InvClosedStep(c: Config, s: State, a: Action) returns (m: State)
    requires Inv(c, s) && Barrier.Closed(s.bar) && Guard(c, s, a)
    ensures m == Effect(c, s, a) && Inv(c, m) && (Barrier.Closed(m.bar) <==> !BarrierWakeup(a))
  {
    m := Effect(c, s, a);
    InvStep(c, s, a);
    StepClosedExactly(c, s, a);
  }

  lemma NoWakeupFirst(acts: seq<Action>)
    requires acts != []
    ensures NoBarrierWakeup(acts) <==> !BarrierWakeup(acts[0]) && NoBarrierWakeup(acts[1..])
  {
    assert forall k :: 1 <= k < |acts| ==> acts[k] == acts[1..][k - 1];
  }

  /** For every tree, size, number of workers, pattern of failures and schedule: a run keeps
      everybody before the wait until all have entered if and only if the wait never returns
      spuriously in it. */
  lemma BarrierHoldsExactly(c: Config, acts: seq<Action>, s: State)
    requires Reaches(c, acts, s)
    ensures ClosedThroughout(c, Start(c), acts, s) <==> NoBarrierWakeup(acts)
  {
    Invariant(c, [], Start(c));
    Barrier.StartInv(c.workers + 1);
    RunClosedExactly(c, Start(c), acts, s);
  }

  /** So when the first thread exits in such a run, every thread has entered the barrier and every
      file has been copied and closed. */
  lemma FirstExit(c: Config, acts: seq<Action>, s: State, t: int)
    requires Reaches(c, acts, s) && NoBarrierWakeup(acts)
    requires 0 <= t < |s.bar.pcs| && s.bar.pcs[t].Exited?
    ensures Barrier.AllEntered(s.bar) && Delivered(c, s)
  {
    assert Barrier.Closed(s.bar) by { StaysClosed(c, acts, s); }
    Invariant(c, acts, s);
    AllPastLoop(c, s);
  }

  lemma StaysClosed(c: Config, acts: seq<Action>, s: State)
    requires Reaches(c, acts, s) && NoBarrierWakeup(acts)
    ensures Barrier.Closed(s.bar)
  {
    Invariant(c, [], Start(c));
    Barrier.StartInv(c.workers + 1);
    RunClosedExactly(c, Start(c), acts, s);
  }

  // ---------- an early exit, from every configuration ----------

  /** Nobody has taken a step inside the barrier yet. */
  ghost predicate Untouched(b: Barrier.Barrier) {
    b.holder == Barrier.FREE && forall t :: 0 <= t < |b.pcs| ==> b.pcs[t].Outside? || b.pcs[t].Enter?
  }

  lemma StaysUntouched(c: Config, s: State, a: Action)
    requires Control(c, s) && Untouched(s.bar) && Guard(c, s, a) && !a.AtBar?
    ensures Untouched(Effect(c, s, a).bar)
  {
    if Arrives(a) {
      var t := ArrivingStep(c, s, a);
    } else {
      OtherSteps(c, s, a);
    }
  }

  lemma AtDoor(c: Config, s: State)
    requires Control(c, s) && AllArrived(s) && Untouched(s.bar)
    ensures Barrier.AllAtDoor(s.bar)
  {
    forall t | 0 <= t < |s.bar.pcs| ensures s.bar.pcs[t].Enter? {
      if t < |s.ws| { assert !Awake(s.ws[t]); }
    }
  }

  /** The walk and all copying can be done before anybody moves inside the barrier. */
  lemma {:induction false} AllToTheDoor(c: Config, s: State) returns (acts: seq<Action>, t: State)
    requires Inv(c, s) && Untouched(s.bar)
    ensures Run(c, s, acts, t) && Inv(c, t) && Barrier.AllAtDoor(t.bar) && NoBarrierWakeup(acts)
    decreases Measure(s)
  {
    if AllArrived(s) {
      AtDoor(c, s);
      acts, t := [], s;
    } else {
      var a, m := TowardsTheDoor(c, s);
      var rest;
      rest, t := AllToTheDoor(c, m);
      acts := [a] + rest;
      assert acts[1..] == rest;
      NoWakeupFirst(acts);
    }
  }

  lemma TowardsTheDoor(c: Config, s: State) returns (a: Action, m: State)
    requires Inv(c, s) && Untouched(s.bar) && !AllArrived(s)
    ensures Guard(c, s, a) && !a.AtBar? && Valid(s.shared.ring) && m == Effect(c, s, a)
    ensures Inv(c, m) && Untouched(m.bar) && Measure(m) < Measure(s)
  {
    assert !s.bar.pcs[0].Exited?;
    a, m := Forward(c, s);
    StaysUntouched(c, s, a);
  }

  lemma {:induction false} RunThen(c: Config, s: State, acts: seq<Action>, t: State, a: Action)
    requires Run(c, s, acts, t) && Valid(t.shared.ring) && Guard(c, t, a)
    ensures Run(c, s, acts + [a], Effect(c, t, a))
    decreases |acts|
  {
    if acts == [] {
      assert [a][1..] == [];
    } else {
      RunThen(c, Effect(c, s, acts[0]), acts[1..], t, a);
      assert (acts + [a])[1..] == acts[1..] + [a];
    }
  }

  /** One more step inside the barrier. */
  lemma OneMore(c: Config, acts: seq<Action>, s: State, i: int, b: Barrier.Action) returns (t: State)
    requires Reaches(c, acts, s) && Barrier.Guard(s.bar, i, b)
    ensures Reaches(c, acts + [AtBar(i, b)], t) && t.bar == Barrier.Effect(s.bar, i, b)
  {
    assert Valid(s.shared.ring) by { Invariant(c, acts, s); }
    t := Effect(c, s, AtBar(i, b));
    RunThen(c, Start(c), acts, s, AtBar(i, b));
  }

  function StepsOf(i: int, bs: seq<Barrier.Action>): seq<Action> {
    if bs == [] then [] else [AtBar(i, bs[0])] + StepsOf(i, bs[1..])
  }

  /** What thread `i` can do inside the barrier it can do in the program. */
  lemma {:induction false} Through(c: Config, acts: seq<Action>, s: State, i: int, bs: seq<Barrier.Action>, b: Barrier.Barrier)
      returns (t: State)
    requires Reaches(c, acts, s) && Barrier.Alone(s.bar, i, bs, b)
    ensures Reaches(c, acts + StepsOf(i, bs), t) && t.bar == b
    decreases |bs|
  {
    if bs == [] {
      t := s;
      assert acts + [] == acts;
    } else {
      var m := OneMore(c, acts, s, i, bs[0]);
      t := Through(c, acts + [AtBar(i, bs[0])], m, i, bs[1..], b);
      assert acts + StepsOf(i, bs) == acts + [AtBar(i, bs[0])] + StepsOf(i, bs[1..]);
    }
  }

  lemma ReachTheDoor(c: Config) returns (quiet: seq<Action>, s: State)
    requires Runs(c)
    ensures NoBarrierWakeup(quiet) && Reaches(c, quiet, s) && Barrier.AllAtDoor(s.bar)
    ensures Barrier.Inv(s.bar) && |s.bar.pcs| == c.workers + 1
  {
    Invariant(c, [], Start(c));
    quiet, s := AllToTheDoor(c, Start(c));
  }

  /** From every configuration, with failures or without, any one thread can leave the barrier while
      no other has even entered it, and one spurious return of the wait is all it takes. */
  lemma EarlyExit(c: Config, i: nat) returns (quiet: seq<Action>, s: State)
    requires Runs(c) && i <= c.workers
    ensures NoBarrierWakeup(quiet) && Reaches(c, quiet + StepsOf(i, Barrier.WOKEN_ALONE), s)
    ensures |s.bar.pcs| == c.workers + 1 && s.bar.pcs[i].Exited?
    ensures forall u :: 0 <= u <= c.workers && u != i ==> s.bar.pcs[u].Enter?
  {
    var door;
    quiet, door := ReachTheDoor(c);
    var b := Barrier.LeavesAlone(door.bar, i);
    s := Through(c, quiet, door, i, Barrier.WOKEN_ALONE, b);
  }
}
