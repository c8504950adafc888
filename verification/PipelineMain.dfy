/** What holds in every state of the order pipeline, for any number of cooks, couriers, orders and
    cancellations and every interleaving. */
module PipelineMain {
  import opened Sequences
  import opened Sums
  import opened Pipeline
  import opened PipelineInv
  import OrderQueues

  // ---------- semaphores ----------

  lemma {:induction false} NoneOf<A>(f: A -> nat, xs: seq<A>)
    requires forall i :: 0 <= i < |xs| ==> f(xs[i]) == 0
    ensures SumOf(f, xs) == 0
  {
    if xs != [] { NoneOf(f, xs[1..]); }
  }

  lemma AccountedStart(cooks: nat, couriers: nat)
    ensures Accounted(Start(cooks, couriers))
  {
    var s := Start(cooks, couriers);
    NoneOf(Capacity, s.cooks);
    NoneOf(Tool, s.cooks);
    NoneOf(Past, s.cooks);
    NoneOf(OnRoad, s.couriers);
  }

  lemma CookSums(s: State, i: nat, c: CookPc)
    requires i < |s.cooks|
    ensures SumOf(Capacity, s.cooks[i := c]) + Capacity(s.cooks[i]) == SumOf(Capacity, s.cooks) + Capacity(c)
    ensures SumOf(Tool, s.cooks[i := c]) + Tool(s.cooks[i]) == SumOf(Tool, s.cooks) + Tool(c)
    ensures SumOf(Past, s.cooks[i := c]) + Past(s.cooks[i]) == SumOf(Past, s.cooks) + Past(c)
    ensures Past(s.cooks[i]) <= SumOf(Past, s.cooks)
  {
    SumUpdate(Capacity, s.cooks, i, c);
    SumUpdate(Tool, s.cooks, i, c);
    SumUpdate(Past, s.cooks, i, c);
    SumAt(Past, s.cooks, i);
  }

  lemma AccountedCook(s: State, i: int)
    requires Accounted(s) && CookGuard(s, i)
    ensures Accounted(CookEffect(s, i))
  {
    CookSums(s, i, CookEffect(s, i).cooks[i]);
  }

  /** A step of courier `j` that touches no counter but the delivery permits. */
  lemma AccountedDelivery(s: State, s': State, j: nat)
    requires Accounted(s) && j < |s.couriers| && |s'.couriers| == |s.couriers|
    requires s'.couriers == s.couriers[j := s'.couriers[j]]
    requires s'.cooks == s.cooks && s'.cookStack == s.cookStack && s'.taskSem == s.taskSem && s'.mgr == s.mgr
    requires s'.queue == s.queue && s'.toolSem == s.toolSem && s'.capacitySem == s.capacitySem
    requires s'.deliverySem + OnRoad(s'.couriers[j]) == s.deliverySem + OnRoad(s.couriers[j])
    ensures Accounted(s')
  {
    SumUpdate(OnRoad, s.couriers, j, s'.couriers[j]);
  }

  lemma AccountedCourier(s: State, a: Action)
    requires Accounted(s) && Guard(s, a) && (a.Courier? || a.TimeOut? || a.CourierWakes?)
    ensures Accounted(Effect(s, a))
  {
    if a.Courier? {
      AccountedDelivery(s, CourierEffect(s, a.j), a.j);
    } else {
      AccountedDelivery(s, Effect(s, a), a.j);
    }
  }

  lemma AccountedSignal(s: State, i: int, wake: int)
    requires Accounted(s) && Guard(s, Signal(i, wake))
    ensures Accounted(Effect(s, Signal(i, wake)))
  {
    CookSums(s, i, CookIdle);
    if 0 <= wake < |s.couriers| { SumUpdate(OnRoad, s.couriers, wake, Deciding(false)); }
  }

  lemma AccountedStep(s: State, a: Action)
    requires Accounted(s) && Guard(s, a)
    ensures Accounted(Effect(s, a))
  {
    if a.Cook? {
      AccountedCook(s, a.i);
    } else if a.Signal? {
      AccountedSignal(s, a.i, a.wake);
    } else if a.Courier? || a.TimeOut? || a.CourierWakes? {
      AccountedCourier(s, a);
    }
  }

  lemma InvStep(s: State, a: Action)
    requires Inv(s) && Guard(s, a)
    ensures Inv(Effect(s, a))
  {
    AccountedStep(s, a);
    if a.Manager? || a.ManagerWakes? {
      SeatedManager(s, a);
      ToldManager(s, a);
    } else if ByClient(a) {
      SeatedClient(s, a);
      ToldManager(s, a);
    } else if a.Cook? || a.Signal? {
      SeatedCook(s, a);
      ToldCook(s, a);
    } else {
      SeatedCourier(s, a);
      ToldCourier(s, a);
    }
  }

  lemma {:induction false} RunKeepsInv(s: State, acts: seq<Action>, t: State)
    requires Inv(s) && Run(s, acts, t)
    ensures Inv(t) && |t.cooks| == |s.cooks| && |t.couriers| == |s.couriers|
    decreases |acts|
  {
    if acts != [] {
      InvStep(s, acts[0]);
      RunKeepsInv(Effect(s, acts[0]), acts[1..], t);
    }
  }

  lemma StartInv(cooks: nat, couriers: nat)
    ensures Inv(Start(cooks, couriers))
  {
    AccountedStart(cooks, couriers);
    forall p ensures Seated(Start(cooks, couriers), p) {}
  }

  lemma Invariant(cooks: nat, couriers: nat, acts: seq<Action>, s: State)
    requires Reaches(cooks, couriers, acts, s)
    ensures Inv(s) && |s.cooks| == cooks && |s.couriers| == couriers
  {
    StartInv(cooks, couriers);
    RunKeepsInv(Start(cooks, couriers), acts, s);
  }

  /** Order conservation: each accepted order is at exactly one place, listed there once. */
  lemma EachOrderIsSomewhereOnce(cooks: nat, couriers: nat, acts: seq<Action>, s: State, t: Ticket)
    requires Reaches(cooks, couriers, acts, s) && t < |s.ids|
    ensures exists p :: t in Holding(s, p)
    ensures forall p, q :: t in Holding(s, p) && t in Holding(s, q) ==> p == q
    ensures forall p :: NoRepeats(Holding(s, p))
  {
    Invariant(cooks, couriers, acts, s);
    assert Seated(s, s.place[t]);
    assert t in Holding(s, s.place[t]);
    forall p, q | t in Holding(s, p) && t in Holding(s, q) ensures p == q {
      assert Seated(s, p) && Seated(s, q);
    }
    forall p ensures NoRepeats(Holding(s, p)) { assert Seated(s, p); }
  }

  /** Status traces: what a client has been told is a prefix of the five statuses, all of them once
      the order is delivered, none while it waits or if it was cancelled. */
  lemma StatusesInOrder(cooks: nat, couriers: nat, acts: seq<Action>, s: State, t: Ticket)
    requires Reaches(cooks, couriers, acts, s) && t < |s.ids|
    ensures t < |s.sent| && t < |s.place| && s.sent[t] == TraceAt(s, t)
    ensures s.sent[t] <= [Cooking, InOven, Cooked, Delivering, Delivered]
    ensures t in s.gone <==> s.sent[t] == [Cooking, InOven, Cooked, Delivering, Delivered]
    ensures t in s.queue || t in s.cookStack || t in s.cancelled ==> s.sent[t] == []
    ensures t in s.deliveryStack ==> s.sent[t] == [Cooking, InOven, Cooked]
  {
    Invariant(cooks, couriers, acts, s);
    assert s.sent[t] == TraceAt(s, t);
    assert Seated(s, Gone) && Seated(s, InQueue) && Seated(s, OnCookStack) && Seated(s, Cancelled);
    assert Seated(s, OnDeliveryStack);
    assert |WHOLE| == 5;
  }

  /** Semaphore accounting: permits plus holders is constant for oven capacity, oven tools and
      delivery, and the cooks' task index is the posted tasks plus those between post and pop. */
  lemma SemaphoresAccountedFor(cooks: nat, couriers: nat, acts: seq<Action>, s: State)
    requires Reaches(cooks, couriers, acts, s)
    ensures s.capacitySem + SumOf(Capacity, s.cooks) == 6
    ensures s.toolSem + SumOf(Tool, s.cooks) == 3
    ensures s.deliverySem + SumOf(OnRoad, s.couriers) == 3
    ensures |s.cookStack| == s.taskSem + SumOf(Past, s.cooks) + (if s.mgr.Posting? then 1 else 0)
  {
    Invariant(cooks, couriers, acts, s);
  }

  /** A cook past `sem_wait` always finds a task: the else branch of `cook_worker` is dead. */
  lemma CookAlwaysFindsTask(cooks: nat, couriers: nat, acts: seq<Action>, s: State, i: int)
    requires Reaches(cooks, couriers, acts, s) && 0 <= i < |s.cooks| && s.cooks[i].PastSem?
    ensures s.cookStack != []
  {
    Invariant(cooks, couriers, acts, s);
    SumAt(Past, s.cooks, i);
  }

  // ---------- cancellation ----------

  /** A cancellation keeps the survivors in order, and those it throws out too. */
  lemma KeepInOrder(ids: seq<int>, q: seq<Ticket>, r: seq<Ticket>, id: int)
    ensures Keep(ids, q + r, id) == Keep(ids, q, id) + Keep(ids, r, id)
    ensures Drop(ids, q + r, id) == Drop(ids, q, id) + Drop(ids, r, id)
  {
    RejectAppend(q, r, HasId(ids, id));
    RejectAppend(q, r, LacksId(ids, id));
  }

  function OrdersOf(q: seq<Ticket>, order: Ticket -> OrderQueues.Order): seq<OrderQueues.Order> {
    if q == [] then [] else [order(q[0])] + OrdersOf(q[1..], order)
  }

  /** The cancelling step does to the tickets what `remove_order_from_queue` does to the linked list
      of the orders themselves. */
  lemma {:induction false} CancelIsRemoval(ids: seq<int>, q: seq<Ticket>, id: int, order: Ticket -> OrderQueues.Order)
    requires forall k :: 0 <= k < |q| ==> q[k] < |ids| && order(q[k]).orderId == ids[q[k]]
    ensures OrdersOf(Keep(ids, q, id), order) == OrderQueues.Without(OrdersOf(q, order), id)
  {
    if q != [] {
      CancelIsRemoval(ids, q[1..], id, order);
      assert OrdersOf(q, order)[1..] == OrdersOf(q[1..], order);
      var rest := Keep(ids, q[1..], id);
      if ids[q[0]] == id {
        assert Keep(ids, q, id) == rest;
      } else {
        assert Keep(ids, q, id) == [q[0]] + rest && ([q[0]] + rest)[1..] == rest;
      }
    }
  }

  // ---------- the task arrays ----------

  predicate IsLive(p: Place) { !p.Gone? && !p.Cancelled? }

  /** The accepted orders that are neither delivered nor cancelled. */
  function Live(s: State): set<Ticket> {
    set t: Ticket | 0 <= t < |s.place| && IsLive(s.place[t])
  }

  lemma {:induction false} DistinctFit(ts: seq<Ticket>, xs: set<Ticket>)
    requires NoRepeats(ts) && forall t :: t in ts ==> t in xs
    ensures |ts| <= |xs|
  {
    if ts != [] {
      FirstOut(ts);
      DistinctFit(ts[1..], xs - {ts[0]});
    }
  }

  /** Neither stack ever holds more than the live orders, so while at most MAX_CLIENTS orders are
      live no write goes past the end of either `tasks` array. */
  lemma StacksFit(cooks: nat, couriers: nat, acts: seq<Action>, s: State)
    requires Reaches(cooks, couriers, acts, s)
    ensures |s.cookStack| <= |Live(s)| && |s.deliveryStack| <= |Live(s)|
    ensures |Live(s)| <= 50 ==> |s.cookStack| <= 50 && |s.deliveryStack| <= 50
  {
    Invariant(cooks, couriers, acts, s);
    assert Seated(s, OnCookStack) && Seated(s, OnDeliveryStack);
    DistinctFit(s.cookStack, Live(s));
    DistinctFit(s.deliveryStack, Live(s));
  }

  /** And the bound is needed, for either array: with any number of orders the cooks' array can be
      asked to hold all of them at once, MAX_CLIENTS + 1 included. */
  lemma {:induction false} StackCanFill(cooks: nat, couriers: nat, n: nat) returns (acts: seq<Action>, s: State)
    requires 1 <= cooks && 1 <= couriers
    ensures Reaches(cooks, couriers, acts, s)
    ensures |s.cookStack| == n && |s.ids| == n && s.queue == [] && s.mgr == AtQueue
  {
    if n == 0 {
      acts, s := [], Start(cooks, couriers);
    } else {
      var before, p := StackCanFill(cooks, couriers, n - 1);
      var p1 := Effect(p, Arrive(0));
      var p2 := Effect(p1, Manager);
      var p3 := Effect(p2, Manager);
      s := Effect(p3, Manager);
      RunMore(Start(cooks, couriers), before, p, Arrive(0));
      RunMore(Start(cooks, couriers), before + [Arrive(0)], p1, Manager);
      RunMore(Start(cooks, couriers), before + [Arrive(0)] + [Manager], p2, Manager);
      RunMore(Start(cooks, couriers), before + [Arrive(0)] + [Manager] + [Manager], p3, Manager);
      acts := before + [Arrive(0)] + [Manager] + [Manager] + [Manager];
    }
  }

  /** Cook `i` finishes what it has in hand while nobody else does anything. */
  lemma {:induction false} CookFinishes(s: State, i: nat) returns (acts: seq<Action>, t: State)
    requires i < |s.cooks| && s.capacitySem + Capacity(s.cooks[i]) >= 1 && s.toolSem + Tool(s.cooks[i]) >= 1
    requires !s.cooks[i].CookIdle? && !s.cooks[i].PastSem?
    requires forall j :: 0 <= j < |s.couriers| ==> s.couriers[j].CourierIdle?
    ensures Run(s, acts, t) && Resting(t, i)
    ensures t.deliveryStack == s.deliveryStack + OfCook(s.cooks[i])
    ensures t.cookStack == s.cookStack && t.taskSem == s.taskSem && t.mgr == s.mgr && t.queue == s.queue && t.ids == s.ids
    decreases Steps(s.cooks[i])
  {
    var a := if s.cooks[i].Signalling? then Signal(i, -1) else Cook(i);
    var m := Effect(s, a);
    if m.cooks[i].CookIdle? {
      acts, t := [a], m;
      assert acts[1..] == [];
    } else {
      var rest;
      rest, t := CookFinishes(m, i);
      acts := [a] + rest;
      assert acts[1..] == rest;
    }
  }

  /** Cook `i` is idle, the oven has room for it and no courier has moved. */
  ghost predicate Resting(s: State, i: nat) {
    && i < |s.cooks| && s.cooks[i].CookIdle? && s.capacitySem >= 1 && s.toolSem >= 1
    && forall j :: 0 <= j < |s.couriers| ==> s.couriers[j].CourierIdle?
  }

  function Steps(c: CookPc): nat {
    match c
    case Took(_) => 11
    case WantsCapacity(_) => 10
    case WantsTool(_) => 9
    case HasTool(_) => 8
    case Loaded(_) => 7
    case Baking(_) => 6
    case Removing(_) => 5
    case CapacityBack(_) => 4
    case Out(_) => 3
    case ToHandOver(_) => 2
    case Signalling => 1
    case _ => 0
  }

  /** The manager takes one order from its arrival to the cooks' stack. */
  lemma OrderToStack(s: State) returns (acts: seq<Action>, t: State)
    requires Resting(s, 0) && s.queue == [] && s.mgr == AtQueue && s.cookStack == [] && s.taskSem == 0
    ensures Run(s, acts, t) && Resting(t, 0) && t.queue == [] && t.mgr == AtQueue && |t.cookStack| == 1 && t.taskSem == 1
    ensures t.deliveryStack == s.deliveryStack && |t.ids| == |s.ids| + 1
  {
    var s1 := Effect(s, Arrive(0));
    var s2 := Effect(s1, Manager);
    var s3 := Effect(s2, Manager);
    t := Effect(s3, Manager);
    acts := RunBefore(s3, Manager, [], t);
    acts := RunBefore(s2, Manager, acts, t);
    acts := RunBefore(s1, Manager, acts, t);
    acts := RunBefore(s, Arrive(0), acts, t);
  }

  /** A cook takes it on to the delivery stack. */
  lemma OrderThroughOven(s: State) returns (acts: seq<Action>, t: State)
    requires Resting(s, 0) && |s.cookStack| == 1 && s.taskSem == 1
    ensures Run(s, acts, t) && Resting(t, 0) && t.cookStack == [] && t.taskSem == 0
    ensures t.queue == s.queue && t.mgr == s.mgr && t.ids == s.ids && |t.deliveryStack| == |s.deliveryStack| + 1
  {
    var s1 := CookEffect(s, 0);
    var s2 := CookEffect(s1, 0);
    acts, t := CookFinishes(s2, 0);
    acts := RunBefore(s1, Cook(0), acts, t);
    acts := RunBefore(s, Cook(0), acts, t);
  }

  lemma RunBefore(s: State, a: Action, acts: seq<Action>, t: State) returns (all: seq<Action>)
    requires Guard(s, a) && Run(Effect(s, a), acts, t)
    ensures all == [a] + acts && Run(s, all, t)
  {
    all := [a] + acts;
    assert all[1..] == acts;
  }

  lemma {:induction false} RunsJoin(s: State, acts: seq<Action>, m: State, more: seq<Action>, t: State)
    requires Run(s, acts, m) && Run(m, more, t)
    ensures Run(s, acts + more, t)
    decreases |acts|
  {
    if acts == [] {
      assert acts + more == more;
    } else {
      RunsJoin(Effect(s, acts[0]), acts[1..], m, more, t);
      assert (acts + more)[1..] == acts[1..] + more;
    }
  }

  /** And so can the couriers' array. */
  lemma {:induction false} DeliveryStackCanFill(cooks: nat, couriers: nat, n: nat) returns (acts: seq<Action>, s: State)
    requires 1 <= cooks && 1 <= couriers
    ensures Reaches(cooks, couriers, acts, s)
    ensures |s.deliveryStack| == n && |s.ids| == n
    ensures Resting(s, 0) && s.queue == [] && s.mgr == AtQueue && s.cookStack == [] && s.taskSem == 0
  {
    if n == 0 {
      acts, s := [], Start(cooks, couriers);
    } else {
      var before, p := DeliveryStackCanFill(cooks, couriers, n - 1);
      var first, m := OrderToStack(p);
      var second;
      second, s := OrderThroughOven(m);
      RunsJoin(Start(cooks, couriers), before, p, first, m);
      RunsJoin(Start(cooks, couriers), before + first, m, second, s);
      acts := before + first + second;
    }
  }

  lemma {:induction false} BelowFit(xs: set<Ticket>, n: nat)
    requires forall t :: t in xs ==> t < n
    ensures |xs| <= n
  {
    if n == 0 {
      assert xs == {};
    } else {
      BelowFit(xs - {n - 1}, n - 1);
      assert xs <= (xs - {n - 1}) + {n - 1};
    }
  }

  /** No state of any run with at most `live` live orders has more on this stack than its array holds. */
  ghost predicate AlwaysFits(cooks: nat, couriers: nat, live: nat, stack: State -> seq<Ticket>) {
    forall acts, s :: Reaches(cooks, couriers, acts, s) && |Live(s)| <= live ==> |stack(s)| <= 50
  }

  function CookStack(): State -> seq<Ticket> { (s: State) => s.cookStack }

  function DeliveryStack(): State -> seq<Ticket> { (s: State) => s.deliveryStack }

  /** So both arrays are large enough for every run with at most `n` undelivered orders at a time if
      and only if `n` is at most MAX_CLIENTS. */
  lemma FitsExactly(cooks: nat, couriers: nat, n: nat)
    requires 1 <= cooks && 1 <= couriers
    ensures AlwaysFits(cooks, couriers, n, CookStack()) <==> n <= 50
    ensures AlwaysFits(cooks, couriers, n, DeliveryStack()) <==> n <= 50
  {
    if n <= MAX_CLIENTS {
      forall acts, s | Reaches(cooks, couriers, acts, s) && |Live(s)| <= n
        ensures |CookStack()(s)| <= MAX_CLIENTS && |DeliveryStack()(s)| <= MAX_CLIENTS
      {
        StacksFit(cooks, couriers, acts, s);
      }
    } else {
      var acts, s := StackCanFill(cooks, couriers, n);
      LiveAtMost(cooks, couriers, acts, s);
      assert |CookStack()(s)| > MAX_CLIENTS;
      acts, s := DeliveryStackCanFill(cooks, couriers, n);
      LiveAtMost(cooks, couriers, acts, s);
      assert |DeliveryStack()(s)| > MAX_CLIENTS;
    }
  }

  lemma LiveAtMost(cooks: nat, couriers: nat, acts: seq<Action>, s: State)
    requires Reaches(cooks, couriers, acts, s)
    ensures |Live(s)| <= |s.ids|
  {
    Invariant(cooks, couriers, acts, s);
    BelowFit(Live(s), |s.ids|);
  }

  lemma {:induction false} RunMore(s: State, acts: seq<Action>, t: State, a: Action)
    requires Run(s, acts, t) && Guard(t, a)
    ensures Run(s, acts + [a], Effect(t, a))
    decreases |acts|
  {
    if acts == [] {
      assert [a][1..] == [];
    } else {
      RunMore(Effect(s, acts[0]), acts[1..], t, a);
      assert (acts + [a])[1..] == acts[1..] + [a];
    }
  }
}
