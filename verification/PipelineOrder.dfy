/** In which order the pipeline serves the orders, how many at a time, and what a client can read off
    the statuses. */
module PipelineOrder {
  import opened Sequences
  import opened Sums
  import opened Pipeline
  import opened PipelineInv
  import opened PipelineMain

  // ---------- first come, first out of the queue ----------

  ghost predicate Increasing(ts: seq<Ticket>) {
    forall i, j :: 0 <= i < j < |ts| ==> ts[i] < ts[j]
  }

  ghost predicate AllBefore(a: seq<Ticket>, b: seq<Ticket>) {
    forall i, j :: 0 <= i < |a| && 0 <= j < |b| ==> a[i] < b[j]
  }

  lemma IncreasingJoin(a: seq<Ticket>, b: seq<Ticket>)
    ensures Increasing(a + b) <==> Increasing(a) && Increasing(b) && AllBefore(a, b)
  {
    var c := a + b;
    if Increasing(c) {
      forall i, j | 0 <= i < j < |a| ensures a[i] < a[j] { assert c[i] < c[j]; }
      forall i, j | 0 <= i < j < |b| ensures b[i] < b[j] { assert c[|a| + i] < c[|a| + j]; }
      forall i, j | 0 <= i < |a| && 0 <= j < |b| ensures a[i] < b[j] { assert c[i] < c[|a| + j]; }
    }
  }

  /** The orders from the bottom of the cooks' stack through the manager's hand to the end of the
      queue. */
  function Line(s: State): seq<Ticket> {
    s.cookStack + OfManager(s.mgr) + s.queue
  }

  ghost predicate Overtaken(s: State, t: Ticket, u: Ticket) {
    t in s.queue && t < u < |s.ids| && u !in s.queue && u !in s.cancelled
  }

  ghost predicate InLine(s: State) {
    && Increasing(Line(s))
    && (forall t :: t in Line(s) ==> t < |s.ids|)
    && (forall t, u :: !Overtaken(s, t, u))
  }

  lemma RejectBetween(a: seq<Ticket>, q: seq<Ticket>, bad: Ticket -> bool)
    requires Increasing(a + q)
    ensures Increasing(a + Reject(q, bad))
    ensures forall t :: t in a + Reject(q, bad) ==> t in a + q
  {
    var r := Reject(q, bad);
    IncreasingJoin(a, q);
    RejectMembers(q, bad);
    RejectIncreasing(q, bad);
    forall i, j | 0 <= i < |a| && 0 <= j < |r| ensures a[i] < r[j] {
      assert r[j] in q;
    }
    IncreasingJoin(a, r);
    forall t | t in a + r ensures t in a + q {}
  }

  lemma {:induction false} RejectIncreasing(q: seq<Ticket>, bad: Ticket -> bool)
    requires Increasing(q)
    ensures Increasing(Reject(q, bad))
  {
    if q != [] {
      RejectIncreasing(q[1..], bad);
      RejectMembers(q[1..], bad);
      var r := Reject(q[1..], bad);
      forall j | 0 <= j < |r| ensures q[0] < r[j] {
        assert r[j] in q[1..];
      }
      IncreasingJoin([q[0]], r);
    }
  }

  lemma InLineCancel(s: State, id: int)
    requires InLine(s)
    ensures InLine(Effect(s, Cancel(id)))
  {
    var s' := Effect(s, Cancel(id));
    KeepAndDropMembers(s, id);
    RejectBetween(s.cookStack + OfManager(s.mgr), s.queue, HasId(s.ids, id));
    forall t, u ensures !Overtaken(s', t, u) {
      assert !Overtaken(s, t, u);
    }
  }

  lemma KeepAndDropMembers(s: State, id: int)
    ensures forall t :: t in Keep(s.ids, s.queue, id) ==> t in s.queue
    ensures forall t :: t in s.queue ==> t in Keep(s.ids, s.queue, id) || t in Drop(s.ids, s.queue, id)
  {
    RejectMembers(s.queue, HasId(s.ids, id));
    RejectMembers(s.queue, LacksId(s.ids, id));
  }

  lemma InLineArrive(s: State, id: int)
    requires InLine(s)
    ensures InLine(Effect(s, Arrive(id)))
  {
    var s' := Effect(s, Arrive(id));
    assert Line(s') == Line(s) + [|s.ids|];
    forall i | 0 <= i < |Line(s)| ensures Line(s)[i] < |s.ids| { assert Line(s)[i] in Line(s); }
    IncreasingJoin(Line(s), [|s.ids|]);
    assert s'.queue[|s.queue|] == |s.ids|;
    forall t, u ensures !Overtaken(s', t, u) {
      if t in s.queue { assert !Overtaken(s, t, u); }
    }
  }

  lemma InLineManager(s: State)
    requires InLine(s) && ManagerGuard(s)
    ensures InLine(ManagerEffect(s))
  {
    var s' := ManagerEffect(s);
    assert Line(s') == Line(s);
    if s.mgr.AtQueue? && s.queue != [] {
      IncreasingJoin(s.cookStack, s.queue);
      assert Line(s) == s.cookStack + s.queue;
      forall t, u ensures !Overtaken(s', t, u) {
        if t in s'.queue {
          assert t in s.queue;
          var k :| 0 <= k < |s'.queue| && s'.queue[k] == t;
          assert s.queue[0] < s.queue[k + 1];
          assert u in s.queue ==> u == s.queue[0] || u in s'.queue by { assert s.queue == [s.queue[0]] + s'.queue; }
          assert !Overtaken(s, t, u);
        }
      }
    } else {
      forall t, u ensures !Overtaken(s', t, u) { assert !Overtaken(s, t, u); }
    }
  }

  /** A step that at most takes the last order off the cooks' stack. */
  lemma InLineRest(s: State, s': State)
    requires InLine(s) && s'.ids == s.ids && s'.queue == s.queue && s'.cancelled == s.cancelled
    requires OfManager(s'.mgr) == OfManager(s.mgr)
    requires s'.cookStack == s.cookStack || (s.cookStack != [] && s'.cookStack == s.cookStack[..|s.cookStack| - 1])
    ensures InLine(s')
  {
    forall t, u ensures !Overtaken(s', t, u) { assert !Overtaken(s, t, u); }
    if s'.cookStack != s.cookStack {
      var n, rest := |s.cookStack| - 1, OfManager(s.mgr) + s.queue;
      assert Line(s) == s.cookStack + rest && Line(s') == s.cookStack[..n] + rest;
      IncreasingJoin(s.cookStack, rest);
      IncreasingJoin(s.cookStack[..n], rest);
      forall t | t in Line(s') ensures t in Line(s) {}
    } else {
      assert Line(s') == Line(s);
    }
  }

  lemma InLineStep(s: State, a: Action)
    requires InLine(s) && Guard(s, a)
    ensures InLine(Effect(s, a))
  {
    if a.Arrive? { InLineArrive(s, a.id); }
    else if a.Cancel? { InLineCancel(s, a.id); }
    else if a.Manager? { InLineManager(s); }
    else {
      OtherSteps(s, a);
      InLineRest(s, Effect(s, a));
    }
  }

  lemma OtherSteps(s: State, a: Action)
    requires Guard(s, a) && !ByClient(a) && !a.Manager?
    ensures var s' := Effect(s, a);
            && s'.ids == s.ids && s'.queue == s.queue && s'.cancelled == s.cancelled
            && OfManager(s'.mgr) == OfManager(s.mgr)
            && (s'.cookStack == s.cookStack || (s.cookStack != [] && s'.cookStack == s.cookStack[..|s.cookStack| - 1]))
  {
  }

  // ---------- batches ----------

  ghost predicate BatchesFit(s: State) {
    forall j :: 0 <= j < |s.couriers| ==> |OfCourier(s.couriers[j])| <= 3
  }

  /** A courier that has stopped waiting: it picks orders up exactly if there are three, or at least one
      and it has timed out; it takes the newest three, or all of them, newest first, and leaves the
      others as they are. */
  lemma PickUp(s: State, j: int)
    requires CourierGuard(s, j) && s.couriers[j].Deciding?
    ensures var s', n, timedOut := CourierEffect(s, j), |s.deliveryStack|, s.couriers[j].timedOut;
            var left := if n > 3 then n - 3 else 0;
            if n >= 3 || (timedOut && n >= 1) then
              && s'.couriers[j].Picked? && |s'.couriers[j].batch| == n - left
              && (forall k :: 0 <= k < n - left ==> s'.couriers[j].batch[k] == s.deliveryStack[n - 1 - k])
              && s'.deliveryStack == s.deliveryStack[..left]
              && (|s'.couriers[j].batch| < 3 ==> timedOut)
            else
              s'.couriers[j].CourierIdle? && s'.deliveryStack == s.deliveryStack
  {
  }

  /** And what it has picked up it tells and hands over in that order, one at a time. */
  lemma OneAfterTheOther(s: State, j: int)
    requires CourierGuard(s, j) && !s.couriers[j].Deciding?
    ensures var s', b := CourierEffect(s, j), OfCourier(s.couriers[j]);
            if s.couriers[j].Dropping? && b != [] then
              OfCourier(s'.couriers[j]) == b[1..] && s'.gone == s.gone + [b[0]]
            else
              OfCourier(s'.couriers[j]) == b && s'.gone == s.gone
  {
    var c := s.couriers[j];
    if c.Telling? && c.untold != [] {
      assert (c.told + [c.untold[0]]) + c.untold[1..] == c.told + c.untold;
    }
  }

  lemma BatchesFitStep(s: State, a: Action)
    requires BatchesFit(s) && Guard(s, a)
    ensures BatchesFit(Effect(s, a))
  {
    if a.Courier? {
      assert |OfCourier(s.couriers[a.j])| <= 3;
      if s.couriers[a.j].Deciding? { PickUp(s, a.j); } else { OneAfterTheOther(s, a.j); }
      assert forall j :: 0 <= j < |s.couriers| && j != a.j ==> Effect(s, a).couriers[j] == s.couriers[j];
    } else {
      OnlyWoken(s, a);
    }
  }

  lemma OnlyWoken(s: State, a: Action)
    requires Guard(s, a) && !a.Courier?
    ensures var s' := Effect(s, a);
            |s'.couriers| == |s.couriers| && forall j :: 0 <= j < |s.couriers| ==> OfCourier(s'.couriers[j]) == OfCourier(s.couriers[j])
  {
  }

  // ---------- every reachable state ----------

  lemma {:induction false} RunKeepsLine(s: State, acts: seq<Action>, t: State)
    requires InLine(s) && BatchesFit(s) && Run(s, acts, t)
    ensures InLine(t) && BatchesFit(t)
    decreases |acts|
  {
    if acts != [] {
      InLineStep(s, acts[0]);
      BatchesFitStep(s, acts[0]);
      RunKeepsLine(Effect(s, acts[0]), acts[1..], t);
    }
  }

  lemma LineInvariant(cooks: nat, couriers: nat, acts: seq<Action>, s: State)
    requires Reaches(cooks, couriers, acts, s)
    ensures InLine(s) && BatchesFit(s)
  {
    RunKeepsLine(Start(cooks, couriers), acts, s);
  }

  /** In every reachable state the queue is in the order of acceptance, and whoever was accepted after an
      order that still waits in it waits too or has been cancelled: no order is overtaken there. */
  lemma NobodyOvertakes(cooks: nat, couriers: nat, acts: seq<Action>, s: State, t: Ticket, u: Ticket)
    requires Reaches(cooks, couriers, acts, s)
    ensures forall i, j :: 0 <= i < j < |s.queue| ==> s.queue[i] < s.queue[j]
    ensures t in s.queue && t < u < |s.ids| ==> u in s.queue || u in s.cancelled
  {
    LineInvariant(cooks, couriers, acts, s);
    IncreasingJoin(s.cookStack + OfManager(s.mgr), s.queue);
    assert !Overtaken(s, t, u);
  }

  /** The manager takes the oldest order of the queue. */
  lemma ManagerTakesOldest(cooks: nat, couriers: nat, acts: seq<Action>, s: State)
    requires Reaches(cooks, couriers, acts, s) && s.mgr.AtQueue? && s.queue != []
    ensures var s' := Effect(s, Manager);
            && s'.mgr.Carrying? && s'.mgr.order in s.queue
            && forall t :: t in s.queue ==> t == s'.mgr.order || (s'.mgr.order < t && t in s'.queue)
  {
    LineInvariant(cooks, couriers, acts, s);
    IncreasingJoin(s.cookStack + OfManager(s.mgr), s.queue);
    forall t | t in s.queue && t != s.queue[0] ensures s.queue[0] < t && t in s.queue[1..] {
      assert s.queue == [s.queue[0]] + s.queue[1..];
      var k :| 0 <= k < |s.queue| && s.queue[k] == t;
      assert s.queue[0] < s.queue[k];
    }
  }

  /** A cook takes the newest order of the stack; older ones stay below. */
  lemma CookTakesNewest(cooks: nat, couriers: nat, acts: seq<Action>, s: State, i: int)
    requires Reaches(cooks, couriers, acts, s) && 0 <= i < |s.cooks| && s.cooks[i].PastSem?
    ensures CookGuard(s, i)
    ensures var s' := CookEffect(s, i);
            && s'.cooks[i].Took? && s'.cooks[i].order in s.cookStack
            && forall t :: t in s.cookStack ==> t == s'.cooks[i].order || (t < s'.cooks[i].order && t in s'.cookStack)
  {
    CookAlwaysFindsTask(cooks, couriers, acts, s, i);
    LineInvariant(cooks, couriers, acts, s);
    IncreasingJoin(s.cookStack + OfManager(s.mgr), s.queue);
    IncreasingJoin(s.cookStack, OfManager(s.mgr));
    var n := |s.cookStack| - 1;
    forall t | t in s.cookStack && t != s.cookStack[n] ensures t < s.cookStack[n] && t in s.cookStack[..n] {
      assert s.cookStack == s.cookStack[..n] + [s.cookStack[n]];
      var k :| 0 <= k < |s.cookStack| && s.cookStack[k] == t;
      assert s.cookStack[k] < s.cookStack[n];
    }
  }

  /** No courier ever has more than three orders. */
  lemma BatchBound(cooks: nat, couriers: nat, acts: seq<Action>, s: State, j: int)
    requires Reaches(cooks, couriers, acts, s) && 0 <= j < |s.couriers|
    ensures |OfCourier(s.couriers[j])| <= 3
  {
    LineInvariant(cooks, couriers, acts, s);
  }

  /** The delivery stack only ever gains one order, the one a cook hands over, on top, or loses some from
      the top. */
  lemma DeliveryStackIsStack(s: State, a: Action)
    requires Guard(s, a)
    ensures var s' := Effect(s, a);
            if a.Cook? && s.cooks[a.i].ToHandOver? then s'.deliveryStack == s.deliveryStack + [s.cooks[a.i].order]
            else s'.deliveryStack <= s.deliveryStack
  {
  }

  /** A signal from a cook ends the wait of exactly one courier, if any waits. */
  lemma SignalWakesOne(s: State, i: int, wake: int)
    requires Guard(s, Signal(i, wake))
    ensures var s' := Effect(s, Signal(i, wake));
            && |s'.couriers| == |s.couriers|
            && if exists j :: 0 <= j < |s.couriers| && s.couriers[j].Waiting? then
                 && 0 <= wake < |s.couriers| && s.couriers[wake].Waiting? && s'.couriers[wake] == Deciding(false)
                 && forall j :: 0 <= j < |s.couriers| && j != wake ==> s'.couriers[j] == s.couriers[j]
               else s'.couriers == s.couriers
  {
  }

  // ---------- ids ----------

  /** The ids of the orders that arrive in a run, in order. */
  function Arrivals(acts: seq<Action>): seq<int> {
    if acts == [] then [] else (if acts[0].Arrive? then [acts[0].id] else []) + Arrivals(acts[1..])
  }

  lemma OnlyArrivalsName(s: State, a: Action)
    requires Guard(s, a)
    ensures Effect(s, a).ids == s.ids + (if a.Arrive? then [a.id] else [])
  {
  }

  lemma {:induction false} RunIds(s: State, acts: seq<Action>, t: State)
    requires Run(s, acts, t)
    ensures t.ids == s.ids + Arrivals(acts)
    decreases |acts|
  {
    if acts != [] {
      OnlyArrivalsName(s, acts[0]);
      RunIds(Effect(s, acts[0]), acts[1..], t);
      var first := if acts[0].Arrive? then [acts[0].id] else [];
      assert s.ids + (first + Arrivals(acts[1..])) == (s.ids + first) + Arrivals(acts[1..]);
    }
  }

  /** In every reachable state the orders carry the ids that the clients gave them, in the order of
      arrival, and a cancellation takes those with its id out of the queue and no others. */
  lemma CancelsById(cooks: nat, couriers: nat, acts: seq<Action>, s: State, id: int, t: Ticket)
    requires Reaches(cooks, couriers, acts, s) && t < |s.ids|
    ensures s.ids == Arrivals(acts)
    ensures var s' := Effect(s, Cancel(id));
            && (t in s'.queue <==> t in s.queue && Arrivals(acts)[t] != id)
            && (t in s'.cancelled <==> t in s.cancelled || (t in s.queue && Arrivals(acts)[t] == id))
  {
    RunIds(Start(cooks, couriers), acts, s);
    RejectMembers(s.queue, HasId(s.ids, id));
    RejectMembers(s.queue, LacksId(s.ids, id));
  }

  // ---------- how many at a time ----------

  /** Never more than six orders between the oven's capacity and its return, three cooks with a tool in
      hand, and three couriers on the road. */
  lemma AtMost(cooks: nat, couriers: nat, acts: seq<Action>, s: State)
    requires Reaches(cooks, couriers, acts, s)
    ensures |set i | 0 <= i < |s.cooks| && (s.cooks[i].WantsTool? || s.cooks[i].HasTool? || s.cooks[i].Loaded?
                                            || s.cooks[i].Baking? || s.cooks[i].Removing?)| <= 6
    ensures |set i | 0 <= i < |s.cooks| && (s.cooks[i].HasTool? || s.cooks[i].Loaded? || s.cooks[i].Removing?
                                            || s.cooks[i].CapacityBack?)| <= 3
    ensures |set j | 0 <= j < |s.couriers| && (s.couriers[j].Telling? || s.couriers[j].Dropping?)| <= 3
  {
    SemaphoresAccountedFor(cooks, couriers, acts, s);
    var inside := set i | 0 <= i < |s.cooks| && (s.cooks[i].WantsTool? || s.cooks[i].HasTool? || s.cooks[i].Loaded?
                                                 || s.cooks[i].Baking? || s.cooks[i].Removing?);
    var tools := set i | 0 <= i < |s.cooks| && (s.cooks[i].HasTool? || s.cooks[i].Loaded? || s.cooks[i].Removing?
                                                || s.cooks[i].CapacityBack?);
    var road := set j | 0 <= j < |s.couriers| && (s.couriers[j].Telling? || s.couriers[j].Dropping?);
    SumCounts(Capacity, s.cooks, inside);
    SumCounts(Tool, s.cooks, tools);
    SumCounts(OnRoad, s.couriers, road);
  }

  // ---------- what the statuses tell ----------

  /** What has been sent for the order that a cook has in hand, by how far the cook is. */
  lemma CookStatuses(cooks: nat, couriers: nat, acts: seq<Action>, s: State, i: int, t: Ticket)
    requires Reaches(cooks, couriers, acts, s) && 0 <= i < |s.cooks|
    ensures s.cooks[i] == Took(t) ==> t < |s.sent| && s.sent[t] == []
    ensures s.cooks[i] in {WantsCapacity(t), WantsTool(t), HasTool(t)} ==>
              t < |s.sent| && s.sent[t] == [Cooking]
    ensures s.cooks[i] in {Loaded(t), Baking(t), Removing(t), CapacityBack(t), Out(t)} ==>
              t < |s.sent| && s.sent[t] == [Cooking, InOven]
    ensures s.cooks[i] == ToHandOver(t) ==> t < |s.sent| && s.sent[t] == [Cooking, InOven, Cooked]
  {
    Invariant(cooks, couriers, acts, s);
    assert Seated(s, WithCook(i));
    if t in OfCook(s.cooks[i]) {
      assert t in Holding(s, WithCook(i)) && s.sent[t] == TraceAt(s, t);
    }
  }

  /** And for those that a courier has. */
  lemma CourierStatuses(cooks: nat, couriers: nat, acts: seq<Action>, s: State, j: int, t: Ticket)
    requires Reaches(cooks, couriers, acts, s) && 0 <= j < |s.couriers|
    ensures s.couriers[j].Picked? && t in s.couriers[j].batch ==> t < |s.sent| && s.sent[t] == [Cooking, InOven, Cooked]
    ensures s.couriers[j].Telling? && t in s.couriers[j].untold ==> t < |s.sent| && s.sent[t] == [Cooking, InOven, Cooked]
    ensures s.couriers[j].Telling? && t in s.couriers[j].told ==>
              t < |s.sent| && s.sent[t] == [Cooking, InOven, Cooked, Delivering]
    ensures s.couriers[j].Dropping? && t in s.couriers[j].rest ==>
              t < |s.sent| && s.sent[t] == [Cooking, InOven, Cooked, Delivering]
  {
    Invariant(cooks, couriers, acts, s);
    assert Seated(s, WithCourier(j));
    var c := s.couriers[j];
    if t in OfCourier(c) {
      assert t in Holding(s, WithCourier(j)) && s.sent[t] == TraceAt(s, t);
    }
    if c.Telling? && t in c.untold { NotBoth(c.told, c.untold, t); }
  }

  lemma NotBoth(a: seq<Ticket>, b: seq<Ticket>, t: Ticket)
    requires NoRepeats(a + b) && t in b
    ensures t !in a
  {
    var k :| 0 <= k < |b| && b[k] == t;
    assert (a + b)[|a| + k] == t;
    forall m | 0 <= m < |a| ensures a[m] != t { assert (a + b)[m] == a[m]; }
  }
}
