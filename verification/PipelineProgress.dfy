/** Progress of the order pipeline: what is left to do is bounded, somebody can always do some of it,
    and under fair scheduling all of it gets done. */
module PipelineProgress {
  import opened Sequences
  import opened Sums
  import opened Pipeline
  import opened PipelineInv
  import opened PipelineMain

  // ---------- progress ----------

  function CookWork(c: CookPc): nat {
    match c
    case CookIdle => 0
    case PastSem => 1
    case Took(_) => 19
    case WantsCapacity(_) => 18
    case WantsTool(_) => 17
    case HasTool(_) => 16
    case Loaded(_) => 15
    case Baking(_) => 14
    case Removing(_) => 13
    case CapacityBack(_) => 12
    case Out(_) => 11
    case ToHandOver(_) => 10
    case Signalling => 2
  }

  function CourierWork(c: CourierPc): nat {
    match c
    case Deciding(timedOut) => if timedOut then 0 else 1
    case Picked(b) => 2 * |b| + 4
    case Telling(told, untold) => 3 + |told| + 2 * |untold|
    case Dropping(rest) => 2 + |rest|
    case _ => 0
  }

  function ManagerWork(m: ManagerPc): nat {
    match m
    case Asleep => 0
    case AtQueue => 1
    case Posting => 4
    case Carrying(_) => 24
  }

  /** Work left on the accepted orders. */
  function Work(s: State): nat {
    25 * |s.queue| + ManagerWork(s.mgr) + 19 * |s.cookStack| + 2 * s.taskSem
    + SumOf(CookWork, s.cooks) + 7 * |s.deliveryStack| + SumOf(CourierWork, s.couriers)
  }

  function Poll(c: CourierPc): nat {
    match c
    case CourierIdle => 3
    case Waiting => 2
    case Deciding(timedOut) => if timedOut then 1 else 0
    case _ => 0
  }

  /** How far the couriers are from their next look at the delivery stack. */
  function Polling(s: State): nat {
    SumOf(Poll, s.couriers)
  }

  /** A courier's wait for orders: going to wait, timing out, and finding nothing after that. */
  predicate IsPoll(s: State, a: Action) {
    || (a.Courier? && 0 <= a.j < |s.couriers|
        && (s.couriers[a.j].CourierIdle? || (s.couriers[a.j] == Deciding(true) && !Takes(s, true))))
    || a.TimeOut?
  }

  lemma WorkManager(s: State)
    requires ManagerGuard(s)
    ensures Work(Effect(s, Manager)) < Work(s)
  {
  }

  lemma WorkCook(s: State, i: int)
    requires CookGuard(s, i)
    ensures Work(Effect(s, Cook(i))) < Work(s)
  {
    SumUpdate(CookWork, s.cooks, i, Effect(s, Cook(i)).cooks[i]);
  }

  lemma WorkSignal(s: State, i: int, wake: int)
    requires Guard(s, Signal(i, wake))
    ensures Work(Effect(s, Signal(i, wake))) < Work(s)
  {
    SumUpdate(CookWork, s.cooks, i, CookIdle);
    if 0 <= wake < |s.couriers| { SumUpdate(CourierWork, s.couriers, wake, Deciding(false)); }
  }

  lemma WorkPoll(s: State, a: Action)
    requires Guard(s, a) && IsPoll(s, a)
    ensures Work(Effect(s, a)) == Work(s)
    ensures s.deliveryStack != [] ==> Polling(Effect(s, a)) < Polling(s)
  {
    SumUpdate(CourierWork, s.couriers, a.j, Effect(s, a).couriers[a.j]);
    SumUpdate(Poll, s.couriers, a.j, Effect(s, a).couriers[a.j]);
  }

  lemma WorkPick(s: State, j: int)
    requires CourierGuard(s, j) && s.couriers[j].Deciding? && Takes(s, s.couriers[j].timedOut)
    ensures Work(Effect(s, Courier(j))) < Work(s)
  {
    var n := Min(DELIVERY_CAPACITY, |s.deliveryStack|);
    var batch := Reverse(s.deliveryStack[|s.deliveryStack| - n..]);
    assert |batch| == n >= 1;
    SumUpdate(CourierWork, s.couriers, j, Picked(batch));
  }

  lemma WorkCourier(s: State, j: int)
    requires CourierGuard(s, j) && !IsPoll(s, Courier(j))
    requires !(s.couriers[j].Deciding? && Takes(s, s.couriers[j].timedOut))
    ensures Work(Effect(s, Courier(j))) < Work(s)
  {
    var s' := CourierEffect(s, j);
    assert s'.deliveryStack == s.deliveryStack && s'.cooks == s.cooks;
    SumUpdate(CourierWork, s.couriers, j, s'.couriers[j]);
  }

  /** Every step of the server leaves less work, except a courier's poll, which leaves the work
      alone and, while there is something to pick up, brings a look at it closer. */
  lemma StepIsProgress(s: State, a: Action)
    requires Guard(s, a) && !ByClient(a) && !Spurious(a)
    ensures if IsPoll(s, a) then Work(Effect(s, a)) == Work(s) else Work(Effect(s, a)) < Work(s)
    ensures IsPoll(s, a) && s.deliveryStack != [] ==> Polling(Effect(s, a)) < Polling(s)
  {
    if IsPoll(s, a) { WorkPoll(s, a); }
    else if a.Manager? { WorkManager(s); }
    else if a.Cook? { WorkCook(s, a.i); }
    else if a.Signal? { WorkSignal(s, a.i, a.wake); }
    else if s.couriers[a.j].Deciding? && Takes(s, s.couriers[a.j].timedOut) { WorkPick(s, a.j); }
    else { WorkCourier(s, a.j); }
  }

  /** Some cook can move, or all of them are idle with no task posted. */
  lemma CooksMove(s: State) returns (a: Action)
    requires Accounted(s) && (s.taskSem > 0 || exists i :: 0 <= i < |s.cooks| && !s.cooks[i].CookIdle?)
    requires 1 <= |s.cooks|
    ensures Guard(s, a) && (a.Cook? || a.Signal?)
  {
    if i :| 0 <= i < |s.cooks| && s.cooks[i].Signalling? {
      if j :| 0 <= j < |s.couriers| && s.couriers[j].Waiting? { a := Signal(i, j); }
      else { a := Signal(i, -1); }
    } else if i :| 0 <= i < |s.cooks| && Tool(s.cooks[i]) == 1 {
      a := Cook(i);
    } else if i :| 0 <= i < |s.cooks| && Capacity(s.cooks[i]) == 1 {
      NoneOf(Tool, s.cooks);
      a := Cook(i);
    } else {
      NoneOf(Capacity, s.cooks);
      if i :| 0 <= i < |s.cooks| && !s.cooks[i].CookIdle? { a := Cook(i); }
      else { a := Cook(0); }
    }
  }

  lemma CouriersMove(s: State) returns (a: Action)
    requires Accounted(s) && 1 <= |s.couriers|
    requires s.deliveryStack != [] || exists j :: 0 <= j < |s.couriers| && OfCourier(s.couriers[j]) != []
    ensures Guard(s, a) && (a.Courier? || a.TimeOut?)
    ensures s.deliveryStack == [] ==> !IsPoll(s, a)
  {
    if j :| 0 <= j < |s.couriers| && OnRoad(s.couriers[j]) == 1 {
      a := Courier(j);
    } else if j :| 0 <= j < |s.couriers| && s.couriers[j].Picked? {
      NoneOf(OnRoad, s.couriers);
      a := Courier(j);
    } else {
      a := if s.couriers[0].Waiting? then TimeOut(0) else Courier(0);
    }
  }

  /** While an accepted order is neither delivered nor cancelled, some step is enabled that leaves
      less work or brings a look at a delivery stack with orders on it closer: the nested oven
      semaphores, the tool that is taken again while holding capacity, and the delivery semaphore
      never block everybody. */
  lemma Enabled(s: State, t: Ticket) returns (a: Action)
    requires Inv(s) && 1 <= |s.cooks| && 1 <= |s.couriers| && t in Live(s)
    ensures Guard(s, a) && !ByClient(a) && !Spurious(a)
    ensures IsPoll(s, a) ==> s.deliveryStack != []
  {
    assert Seated(s, s.place[t]);
    if s.mgr.Carrying? || s.mgr.Posting? || (s.mgr.AtQueue? && s.queue != []) {
      a := Manager;
    } else if s.taskSem > 0 || exists i :: 0 <= i < |s.cooks| && !s.cooks[i].CookIdle? {
      a := CooksMove(s);
    } else {
      NoneOf(Past, s.cooks);
      match s.place[t]
      case OnDeliveryStack => a := CouriersMove(s);
      case WithCourier(j) =>
        assert t in OfCourier(s.couriers[j]);
        a := CouriersMove(s);
      case WithCook(i) => a := Manager; assert false;
      case _ => a := Manager; assert false;
    }
  }

  lemma SomethingMoves(cooks: nat, couriers: nat, acts: seq<Action>, s: State) returns (a: Action)
    requires Reaches(cooks, couriers, acts, s) && Live(s) != {}
    ensures Guard(s, a) && !ByClient(a) && !Spurious(a)
    ensures !IsIdle(s, a)
    ensures Work(Effect(s, a)) < Work(s) || (Work(Effect(s, a)) == Work(s) && Polling(Effect(s, a)) < Polling(s))
  {
    Invariant(cooks, couriers, acts, s);
    a := NextStep(s);
  }

  lemma NextStep(s: State) returns (a: Action)
    requires Inv(s) && 1 <= |s.cooks| && 1 <= |s.couriers| && Live(s) != {}
    ensures Guard(s, a) && !ByClient(a) && !Spurious(a) && (IsPoll(s, a) ==> s.deliveryStack != [])
    ensures Work(Effect(s, a)) < Work(s) || (Work(Effect(s, a)) == Work(s) && Polling(Effect(s, a)) < Polling(s))
    ensures var t := Effect(s, a);
            Inv(t) && |t.cooks| == |s.cooks| && |t.couriers| == |s.couriers| && t.ids == s.ids && t.cancelled == s.cancelled
  {
    var o :| o in Live(s);
    a := Enabled(s, o);
    StepIsProgress(s, a);
    InvStep(s, a);
  }

  /** A courier's poll of an empty delivery stack, the only step that gets nobody any further. */
  predicate IsIdle(s: State, a: Action) { IsPoll(s, a) && s.deliveryStack == [] }

  /** A bound on the steps left that are not idle polls. */
  function Potential(s: State): nat {
    var k := 3 * |s.couriers|;
    Scaled(Work(s), k + 1) + (if s.deliveryStack == [] then k else Polling(s))
  }

  /** `x` times `k`. */
  function Scaled(x: nat, k: nat): nat {
    if x == 0 then 0 else k + Scaled(x - 1, k)
  }

  lemma {:induction false} ScaledLess(x: nat, y: nat, k: nat)
    requires x < y
    ensures Scaled(x, k) + k <= Scaled(y, k)
  {
    if x + 1 < y { ScaledLess(x, y - 1, k); }
  }

  lemma {:induction false} ScaledAdd(x: nat, y: nat, k: nat)
    ensures Scaled(x + y, k) == Scaled(x, k) + Scaled(y, k)
  {
    if y > 0 {
      ScaledAdd(x, y - 1, k);
      assert x + y - 1 == x + (y - 1);
    }
  }

  lemma {:induction false} ScaledIs(x: nat, k: nat)
    ensures Scaled(x, k) == k * x
  {
    if x > 0 {
      ScaledIs(x - 1, k);
      assert k * x == k * (x - 1) + k;
    }
  }

  /** A server's step that gets somebody further. */
  predicate IsBusy(s: State, a: Action) {
    !ByClient(a) && !Spurious(a) && !IsIdle(s, a)
  }

  function Bit(b: bool): nat { if b then 1 else 0 }

  /** The work that a step can add: an order, or a second look after a spurious wakeup. */
  function Cost(a: Action): nat {
    if a.Arrive? then 26 else if Spurious(a) then 1 else 0
  }

  lemma PollKeepsStack(s: State, a: Action)
    requires Guard(s, a) && IsPoll(s, a)
    ensures Effect(s, a).deliveryStack == s.deliveryStack
  {
  }

  lemma CouriersStay(s: State, a: Action)
    requires Guard(s, a)
    ensures |Effect(s, a).couriers| == |s.couriers|
  {
  }

  /** Steps from outside add no more than their cost; a cancellation adds nothing. */
  lemma OutsideStep(s: State, a: Action)
    requires Guard(s, a) && (ByClient(a) || Spurious(a))
    ensures var s' := Effect(s, a);
            Work(s') <= Work(s) + Cost(a) && s'.deliveryStack == s.deliveryStack && Polling(s') <= Polling(s)
  {
    if a.Cancel? {
      RejectShortens(s.queue, HasId(s.ids, a.id));
    } else if a.CourierWakes? {
      SumUpdate(CourierWork, s.couriers, a.j, Deciding(false));
      SumUpdate(Poll, s.couriers, a.j, Deciding(false));
    }
  }

  lemma OutsidePotential(s: State, a: Action)
    requires Guard(s, a) && (ByClient(a) || Spurious(a))
    ensures Potential(Effect(s, a)) <= Potential(s) + Scaled(Cost(a), 3 * |s.couriers| + 1)
  {
    var w, k := Work(Effect(s, a)), 3 * |s.couriers| + 1;
    CouriersStay(s, a);
    OutsideStep(s, a);
    ScaledAdd(Work(s), Cost(a), k);
    if w < Work(s) + Cost(a) { ScaledLess(w, Work(s) + Cost(a), k); }
  }

  lemma ServerPotential(s: State, a: Action)
    requires Guard(s, a) && !ByClient(a) && !Spurious(a)
    ensures Potential(Effect(s, a)) + Bit(IsBusy(s, a)) <= Potential(s)
  {
    CouriersStay(s, a);
    StepIsProgress(s, a);
    if IsPoll(s, a) {
      PollKeepsStack(s, a);
    } else {
      SumBound(Poll, Effect(s, a).couriers, 3);
      ScaledLess(Work(Effect(s, a)), Work(s), 3 * |s.couriers| + 1);
    }
  }

  /** Every step, of whatever kind. */
  lemma StepPotential(s: State, a: Action)
    requires Guard(s, a)
    ensures Potential(Effect(s, a)) + Bit(IsBusy(s, a)) <= Potential(s) + Scaled(Cost(a), 3 * |s.couriers| + 1)
  {
    if ByClient(a) || Spurious(a) { OutsidePotential(s, a); } else { ServerPotential(s, a); }
  }

  /** The busy steps of a run, and the work added to it. */
  function Busy(s: State, acts: seq<Action>): nat
    decreases |acts|
  {
    if acts == [] || !Guard(s, acts[0]) then 0
    else Bit(IsBusy(s, acts[0])) + Busy(Effect(s, acts[0]), acts[1..])
  }

  function Added(acts: seq<Action>): nat {
    if acts == [] then 0 else Cost(acts[0]) + Added(acts[1..])
  }

  lemma {:induction false} RunPotential(s: State, acts: seq<Action>, t: State)
    requires Run(s, acts, t)
    ensures Busy(s, acts) + Potential(t) <= Potential(s) + Scaled(Added(acts), 3 * |s.couriers| + 1)
    decreases |acts|
  {
    if acts != [] {
      StepPotential(s, acts[0]);
      CouriersStay(s, acts[0]);
      RunPotential(Effect(s, acts[0]), acts[1..], t);
      ScaledAdd(Cost(acts[0]), Added(acts[1..]), 3 * |s.couriers| + 1);
    }
  }

  /** In every run of the server, of any length, under any schedule, with any arrivals,
      cancellations and spurious wakeups, the steps of the server other than idle polls are bounded
      by what has been added. */
  lemma OnlySoMuchToDo(cooks: nat, couriers: nat, acts: seq<Action>, s: State)
    requires Reaches(cooks, couriers, acts, s)
    ensures Busy(Start(cooks, couriers), acts) <= (3 * couriers + 1) * (1 + Added(acts)) + 3 * couriers
  {
    var st := Start(cooks, couriers);
    RunPotential(st, acts, s);
    NoneOf(CookWork, st.cooks);
    NoneOf(CourierWork, st.couriers);
    assert Work(st) == 1;
    ScaledAdd(1, Added(acts), 3 * couriers + 1);
    ScaledIs(1 + Added(acts), 3 * couriers + 1);
  }

  /** With no further arrivals some run leads from every reachable state to one in which each accepted
      order has been delivered or cancelled. */
  lemma {:induction false} EveryOrderFinishes(s: State) returns (acts: seq<Action>, t: State)
    requires Inv(s) && 1 <= |s.cooks| && 1 <= |s.couriers|
    ensures Run(s, acts, t) && Live(t) == {} && t.ids == s.ids && t.cancelled == s.cancelled
    ensures forall k :: 0 <= k < |acts| ==> !ByClient(acts[k]) && !Spurious(acts[k])
    decreases Work(s), Polling(s)
  {
    if Live(s) == {} {
      acts, t := [], s;
    } else {
      var a := NextStep(s);
      var rest;
      rest, t := EveryOrderFinishes(Effect(s, a));
      acts := [a] + rest;
      assert acts[1..] == rest;
    }
  }

  // ---------- fair behaviours ----------

  datatype Thread = TheManager | ACook(i: int) | ACourier(j: int)

  predicate Moves(a: Action, th: Thread) {
    match th
    case TheManager => a.Manager?
    case ACook(i) => (a.Cook? || a.Signal?) && a.i == i
    case ACourier(j) => (a.Courier? || a.TimeOut?) && a.j == j
  }

  /** The thread can take a step, the end of a timed wait included. */
  predicate Ready(s: State, th: Thread) {
    match th
    case TheManager => ManagerGuard(s)
    case ACook(i) => CookGuard(s, i) || (0 <= i < |s.cooks| && s.cooks[i].Signalling?)
    case ACourier(j) => CourierGuard(s, j) || (0 <= j < |s.couriers| && s.couriers[j].Waiting?)
  }

  lemma ReadyExactly(s: State, th: Thread)
    ensures Ready(s, th) <==> exists a :: Moves(a, th) && Guard(s, a)
  {
    if Ready(s, th) {
      var a := match th
               case TheManager => Manager
               case ACook(i) => if CookGuard(s, i) then Cook(i) else Signal(i, Waiter(s))
               case ACourier(j) => if CourierGuard(s, j) then Courier(j) else TimeOut(j);
      assert Moves(a, th) && Guard(s, a);
    }
  }

  /** A courier that a signal can wake, or -1. */
  ghost function Waiter(s: State): (w: int)
    ensures SignalChoice(s, w)
  {
    if j :| 0 <= j < |s.couriers| && s.couriers[j].Waiting? then j else -1
  }

  /** An execution that goes on for ever. */
  ghost predicate Behaviour(st: nat -> State, act: nat -> Action) {
    forall n: nat :: StepAt(st, act, n)
  }

  ghost predicate StepAt(st: nat -> State, act: nat -> Action, n: nat) {
    Guard(st(n), act(n)) && st(n + 1) == Effect(st(n), act(n))
  }

  /** No thread that stays ready for ever is passed over for ever. */
  ghost predicate Fair(st: nat -> State, act: nat -> Action) {
    forall th, n: nat :: AlwaysReady(st, th, n) ==> MovesLater(act, th, n)
  }

  ghost predicate AlwaysReady(st: nat -> State, th: Thread, n: nat) {
    forall m: nat :: n <= m ==> Ready(st(m), th)
  }

  ghost predicate MovesLater(act: nat -> Action, th: Thread, n: nat) {
    exists m: nat :: n <= m && Moves(act(m), th)
  }

  /** From step `n` on no order arrives and no wait returns spuriously; orders may be cancelled. */
  ghost predicate QuietFrom(act: nat -> Action, n: nat) {
    forall m: nat :: n <= m ==> !act(m).Arrive? && !Spurious(act(m))
  }

  /** A thread that is ready and all of whose steps are busy. */
  predicate Pressing(s: State, th: Thread) {
    && Ready(s, th)
    && (th.ACourier? && s.deliveryStack == [] ==>
          !s.couriers[th.j].CourierIdle? && !s.couriers[th.j].Waiting? && s.couriers[th.j] != Deciding(true))
  }

  lemma PressingMoveIsBusy(s: State, a: Action, th: Thread)
    requires Pressing(s, th) && Moves(a, th) && Guard(s, a)
    ensures IsBusy(s, a)
  {
  }

  /** Idle polls and cancellations take no chance from a pressing thread. */
  lemma StaysPressing(s: State, a: Action, th: Thread)
    requires Pressing(s, th) && Guard(s, a) && !IsBusy(s, a) && !a.Arrive? && !Spurious(a)
    ensures Pressing(Effect(s, a), th)
  {
  }

  lemma SomePressing(s: State, t: Ticket) returns (th: Thread)
    requires Inv(s) && 1 <= |s.cooks| && 1 <= |s.couriers| && t in Live(s)
    ensures Pressing(s, th)
  {
    var a := Enabled(s, t);
    th := if a.Manager? then TheManager else if a.Cook? || a.Signal? then ACook(a.i) else ACourier(a.j);
  }

  lemma {:induction false} InvAt(cooks: nat, couriers: nat, st: nat -> State, act: nat -> Action, n: nat)
    requires st(0) == Start(cooks, couriers) && Behaviour(st, act)
    ensures Inv(st(n)) && |st(n).cooks| == cooks && |st(n).couriers| == couriers
  {
    if n == 0 {
      StartInv(cooks, couriers);
    } else {
      InvAt(cooks, couriers, st, act, n - 1);
      assert StepAt(st, act, n - 1);
      InvStep(st(n - 1), act(n - 1));
      ThreadsStay(st(n - 1), act(n - 1));
    }
  }

  lemma ThreadsStay(s: State, a: Action)
    requires Guard(s, a)
    ensures |Effect(s, a).cooks| == |s.cooks| && |Effect(s, a).couriers| == |s.couriers|
  {
  }

  lemma {:induction false} PotentialFalls(st: nat -> State, act: nat -> Action, n: nat, m: nat)
    requires Behaviour(st, act) && QuietFrom(act, n) && n <= m
    ensures Potential(st(m)) <= Potential(st(n)) && |st(m).ids| == |st(n).ids|
  {
    if n < m {
      PotentialFalls(st, act, n, m - 1);
      assert StepAt(st, act, m - 1);
      QuietStep(st(m - 1), act(m - 1), st(m));
    }
  }

  lemma QuietStep(s: State, a: Action, s': State)
    requires Guard(s, a) && !a.Arrive? && !Spurious(a) && s' == Effect(s, a)
    ensures Potential(s') + Bit(IsBusy(s, a)) <= Potential(s) && |s'.ids| == |s.ids|
  {
    IdsStay(s, a);
    if a.Cancel? {
      OutsidePotential(s, a);
    } else {
      ServerPotential(s, a);
    }
  }

  lemma IdsStay(s: State, a: Action)
    requires Guard(s, a) && !a.Arrive?
    ensures |Effect(s, a).ids| == |s.ids|
  {
  }

  lemma {:induction false} PressingAt(st: nat -> State, act: nat -> Action, n: nat, m: nat, th: Thread)
    requires Behaviour(st, act) && QuietFrom(act, n) && n <= m && Pressing(st(n), th)
    requires forall k: nat :: n <= k ==> !IsBusy(st(k), act(k))
    ensures Pressing(st(m), th)
  {
    if n < m {
      PressingAt(st, act, n, m - 1, th);
      assert StepAt(st, act, m - 1);
      StaysPressing(st(m - 1), act(m - 1), th);
    }
  }

  /** A pressing thread is not passed over for ever: it moves, or another does something useful. */
  lemma PressingIsHeard(st: nat -> State, act: nat -> Action, n: nat, th: Thread) returns (m: nat)
    requires Behaviour(st, act) && Fair(st, act) && QuietFrom(act, n) && Pressing(st(n), th)
    ensures n <= m && IsBusy(st(m), act(m))
  {
    if k: nat :| n <= k && IsBusy(st(k), act(k)) {
      m := k;
    } else {
      forall k: nat | n <= k ensures Ready(st(k), th) { PressingAt(st, act, n, k, th); }
      assert AlwaysReady(st, th, n);
      m :| n <= m && Moves(act(m), th);
      PressingAt(st, act, n, m, th);
      assert StepAt(st, act, m);
      PressingMoveIsBusy(st(m), act(m), th);
    }
  }

  /** While an order is live, a busy step is still to come. */
  lemma BusyAgain(cooks: nat, couriers: nat, st: nat -> State, act: nat -> Action, n: nat) returns (m: nat)
    requires 1 <= cooks && 1 <= couriers && st(0) == Start(cooks, couriers)
    requires Behaviour(st, act) && Fair(st, act) && QuietFrom(act, n) && Live(st(n)) != {}
    ensures n <= m && IsBusy(st(m), act(m))
  {
    InvAt(cooks, couriers, st, act, n);
    var t :| t in Live(st(n));
    var th := SomePressing(st(n), t);
    m := PressingIsHeard(st, act, n, th);
  }

  lemma {:induction false} Empties(cooks: nat, couriers: nat, st: nat -> State, act: nat -> Action, n: nat) returns (m: nat)
    requires 1 <= cooks && 1 <= couriers && st(0) == Start(cooks, couriers)
    requires Behaviour(st, act) && Fair(st, act) && QuietFrom(act, n)
    ensures n <= m && Live(st(m)) == {}
    decreases Potential(st(n))
  {
    if Live(st(n)) == {} {
      m := n;
    } else {
      var b := BusyAgain(cooks, couriers, st, act, n);
      PotentialFalls(st, act, n, b);
      assert StepAt(st, act, b);
      QuietStep(st(b), act(b), st(b + 1));
      m := Empties(cooks, couriers, st, act, b + 1);
    }
  }

  /** In every fair execution in which orders stop arriving, whatever is cancelled and however the
      threads interleave, there comes a time when every order accepted has been delivered, with all
      five statuses sent, or cancelled. */
  lemma EveryOrderIsServed(cooks: nat, couriers: nat, st: nat -> State, act: nat -> Action, n: nat) returns (m: nat)
    requires 1 <= cooks && 1 <= couriers && st(0) == Start(cooks, couriers)
    requires Behaviour(st, act) && Fair(st, act) && QuietFrom(act, n)
    ensures n <= m && |st(m).ids| == |st(n).ids| == |st(m).sent|
    ensures forall t: Ticket :: t < |st(n).ids| ==>
              t in st(m).cancelled || (t in st(m).gone && st(m).sent[t] == [Cooking, InOven, Cooked, Delivering, Delivered])
  {
    m := Empties(cooks, couriers, st, act, n);
    PotentialFalls(st, act, n, m);
    InvAt(cooks, couriers, st, act, m);
    AllServed(st(m));
  }

  lemma AllServed(s: State)
    requires AllSeated(s) && Told(s) && Live(s) == {}
    ensures forall t: Ticket :: t < |s.ids| ==> t in s.cancelled || (t in s.gone && s.sent[t] == [Cooking, InOven, Cooked, Delivering, Delivered])
  {
    assert Seated(s, Gone) && Seated(s, Cancelled);
    forall t: Ticket | t < |s.ids| ensures t in s.cancelled || (t in s.gone && s.sent[t] == [Cooking, InOven, Cooked, Delivering, Delivered]) {
      assert t !in Live(s);
      assert s.sent[t] == TraceAt(s, t);
    }
  }
}
