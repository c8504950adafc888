/** Conservation of orders, status traces and semaphore accounting in the order pipeline. */
module PipelineInv {
  import opened Sequences
  import opened Sums
  import opened Pipeline

  // ---------- who holds which order ----------

  function OfManager(m: ManagerPc): seq<Ticket> {
    if m.Carrying? then [m.order] else []
  }

  function OfCook(c: CookPc): seq<Ticket> {
    if c.CookIdle? || c.PastSem? || c.Signalling? then [] else [c.order]
  }

  function OfCourier(c: CourierPc): seq<Ticket> {
    match c
    case Picked(b) => b
    case Telling(told, untold) => told + untold
    case Dropping(rest) => rest
    case _ => []
  }

  /** The orders that are really at place `p`. */
  function Holding(s: State, p: Place): seq<Ticket> {
    match p
    case InQueue => s.queue
    case WithManager => OfManager(s.mgr)
    case OnCookStack => s.cookStack
    case WithCook(i) => if 0 <= i < |s.cooks| then OfCook(s.cooks[i]) else []
    case OnDeliveryStack => s.deliveryStack
    case WithCourier(j) => if 0 <= j < |s.couriers| then OfCourier(s.couriers[j]) else []
    case Gone => s.gone
    case Cancelled => s.cancelled
  }

  ghost predicate Seated(s: State, p: Place) {
    && NoRepeats(Holding(s, p))
    && forall t :: t in Holding(s, p) <==> 0 <= t < |s.place| && s.place[t] == p
  }

  /** Each accepted order is at exactly one place, once. */
  ghost predicate AllSeated(s: State) {
    && |s.ids| == |s.place| == |s.sent|
    && forall p :: Seated(s, p)
  }

  // ---------- what has been sent ----------

  const COOKED := [Cooking, InOven, Cooked]
  const WHOLE := [Cooking, InOven, Cooked, Delivering, Delivered]

  function CookTrace(c: CookPc): seq<Status> {
    match c
    case Took(_) => []
    case WantsCapacity(_) => [Cooking]
    case WantsTool(_) => [Cooking]
    case HasTool(_) => [Cooking]
    case Loaded(_) => [Cooking, InOven]
    case Baking(_) => [Cooking, InOven]
    case Removing(_) => [Cooking, InOven]
    case CapacityBack(_) => [Cooking, InOven]
    case Out(_) => [Cooking, InOven]
    case ToHandOver(_) => COOKED
    case _ => []
  }

  function CourierTrace(c: CourierPc, t: Ticket): seq<Status> {
    match c
    case Telling(told, _) => if t in told then COOKED + [Delivering] else COOKED
    case Dropping(_) => COOKED + [Delivering]
    case _ => COOKED
  }

  /** The statuses that belong to the place of order `t`. */
  function TraceAt(s: State, t: Ticket): seq<Status>
    requires t < |s.place|
  {
    match s.place[t]
    case WithCook(i) => if 0 <= i < |s.cooks| then CookTrace(s.cooks[i]) else []
    case OnDeliveryStack => COOKED
    case WithCourier(j) => if 0 <= j < |s.couriers| then CourierTrace(s.couriers[j], t) else []
    case Gone => WHOLE
    case _ => []
  }

  ghost predicate Told(s: State) {
    |s.sent| == |s.place| && forall t :: 0 <= t < |s.place| ==> s.sent[t] == TraceAt(s, t)
  }

  // ---------- semaphores ----------

  function Capacity(c: CookPc): nat {
    if c.WantsTool? || c.HasTool? || c.Loaded? || c.Baking? || c.Removing? then 1 else 0
  }

  function Tool(c: CookPc): nat {
    if c.HasTool? || c.Loaded? || c.Removing? || c.CapacityBack? then 1 else 0
  }

  function Past(c: CookPc): nat { if c.PastSem? then 1 else 0 }

  function OnRoad(c: CourierPc): nat { if c.Telling? || c.Dropping? then 1 else 0 }

  ghost predicate Accounted(s: State) {
    && s.capacitySem + SumOf(Capacity, s.cooks) == OVEN_CAPACITY
    && s.toolSem + SumOf(Tool, s.cooks) == OVEN_TOOLS
    && s.deliverySem + SumOf(OnRoad, s.couriers) == DELIVERY_CAPACITY
    && |s.cookStack| == s.taskSem + SumOf(Past, s.cooks) + (if s.mgr.Posting? then 1 else 0)
    && (s.mgr.Asleep? ==> s.queue == [])
  }

  ghost predicate Inv(s: State) {
    AllSeated(s) && Told(s) && Accounted(s)
  }

  // ---------- moving orders ----------

  /** The orders `ts` go from `from` to `to`; every other place keeps what it holds. */
  lemma Moved(s: State, s': State, ts: seq<Ticket>, from: Place, to: Place)
    requires AllSeated(s) && from != to
    requires s'.ids == s.ids && |s'.sent| == |s.sent| && s'.place == Relocate(s.place, ts, to)
    requires forall p :: p != from && p != to ==> Holding(s', p) == Holding(s, p)
    requires forall t :: t in ts ==> t in Holding(s, from)
    requires NoRepeats(Holding(s', from)) && forall t :: t in Holding(s', from) <==> t in Holding(s, from) && t !in ts
    requires NoRepeats(Holding(s', to)) && forall t :: t in Holding(s', to) <==> t in Holding(s, to) || t in ts
    ensures AllSeated(s')
  {
    assert Seated(s, from) && Seated(s, to);
    forall p ensures Seated(s', p) {
      assert Seated(s, p);
    }
  }

  lemma Kept(s: State, s': State)
    requires AllSeated(s)
    requires s'.ids == s.ids && |s'.sent| == |s.sent| && s'.place == s.place
    requires forall p :: Holding(s', p) == Holding(s, p)
    ensures AllSeated(s')
  {
    forall p ensures Seated(s', p) { assert Seated(s, p); }
  }

  lemma Apart(a: seq<Ticket>, b: seq<Ticket>)
    requires NoRepeats(a) && NoRepeats(b) && forall t :: t in a ==> t !in b
    ensures NoRepeats(a + b) && forall t :: t in a + b <==> t in a || t in b
  {
    forall i, j | 0 <= i < j < |a + b| ensures (a + b)[i] != (a + b)[j] {
      if i < |a| <= j { assert (a + b)[i] in a && (a + b)[j] in b; }
    }
  }

  /** Taking the last of a list without repeats. */
  lemma LastOut(ts: seq<Ticket>, n: nat)
    requires NoRepeats(ts) && n <= |ts|
    ensures NoRepeats(ts[..n]) && NoRepeats(Reverse(ts[n..]))
    ensures forall t :: t in ts[..n] <==> t in ts && t !in Reverse(ts[n..])
    ensures forall t :: t in Reverse(ts[n..]) ==> t in ts
    ensures forall t :: t in Reverse(ts[n..]) <==> t in ts[n..]
  {
    var r, b := Reverse(ts[n..]), ts[n..];
    forall t | t in b ensures t in r {
      var k :| 0 <= k < |b| && b[k] == t;
      assert r[|b| - 1 - k] == t;
    }
    forall t ensures t in ts <==> t in ts[..n] || t in b { assert ts == ts[..n] + b; }
    forall i, j | 0 <= i < j < |r| ensures r[i] != r[j] {
      assert r[i] == ts[n + |b| - 1 - i] && r[j] == ts[n + |b| - 1 - j];
    }
  }

  lemma FirstOut(ts: seq<Ticket>)
    requires NoRepeats(ts) && ts != []
    ensures NoRepeats(ts[1..]) && forall t :: t in ts[1..] <==> t in ts && t != ts[0]
  {
    assert ts == [ts[0]] + ts[1..];
  }

  lemma KeepAndDrop(ids: seq<int>, q: seq<Ticket>, id: int)
    requires NoRepeats(q)
    ensures NoRepeats(Keep(ids, q, id)) && NoRepeats(Drop(ids, q, id))
    ensures forall t :: t in Keep(ids, q, id) <==> t in q && !(t < |ids| && ids[t] == id)
    ensures forall t :: t in Drop(ids, q, id) <==> t in q && t < |ids| && ids[t] == id
  {
    RejectNoRepeats(q, HasId(ids, id));
    RejectNoRepeats(q, LacksId(ids, id));
    RejectMembers(q, HasId(ids, id));
    RejectMembers(q, LacksId(ids, id));
  }

  lemma SeatedManager(s: State, a: Action)
    requires AllSeated(s) && Guard(s, a) && (a.Manager? || a.ManagerWakes?)
    ensures AllSeated(Effect(s, a))
  {
    var s' := Effect(s, a);
    assert Seated(s, InQueue) && Seated(s, OnCookStack) && Seated(s, WithManager);
    if a.Manager? && s.mgr.AtQueue? && s.queue != [] {
      FirstOut(s.queue);
      Moved(s, s', [s.queue[0]], InQueue, WithManager);
    } else if a.Manager? && s.mgr.Carrying? {
      assert s.mgr.order in Holding(s, WithManager);
      Moved(s, s', [s.mgr.order], WithManager, OnCookStack);
    } else {
      Kept(s, s');
    }
  }

  lemma SeatedClient(s: State, a: Action)
    requires AllSeated(s) && Guard(s, a) && ByClient(a)
    ensures AllSeated(Effect(s, a))
  {
    var s' := Effect(s, a);
    assert Seated(s, InQueue) && Seated(s, Cancelled);
    if a.Cancel? {
      KeepAndDrop(s.ids, s.queue, a.id);
      Apart(s.cancelled, Drop(s.ids, s.queue, a.id));
      Moved(s, s', Drop(s.ids, s.queue, a.id), InQueue, Cancelled);
    } else {
      var n := |s.ids|;
      Apart(s.queue, [n]);
      forall p ensures Seated(s', p) {
        assert Seated(s, p);
        assert p != InQueue ==> Holding(s', p) == Holding(s, p);
      }
    }
  }

  lemma SeatedCook(s: State, a: Action)
    requires AllSeated(s) && Guard(s, a) && (a.Cook? || a.Signal?)
    ensures AllSeated(Effect(s, a))
  {
    var c := s.cooks[a.i];
    if a.Cook? && c.PastSem? && s.cookStack != [] {
      SeatedPopping(s, a.i);
    } else if a.Cook? && c.ToHandOver? {
      SeatedHandingOver(s, a.i);
    } else {
      CookKeeps(s, a);
      Kept(s, Effect(s, a));
    }
  }

  lemma SeatedPopping(s: State, i: int)
    requires AllSeated(s) && CookGuard(s, i) && s.cooks[i].PastSem? && s.cookStack != []
    ensures AllSeated(CookEffect(s, i))
  {
    assert Seated(s, WithCook(i)) && Seated(s, OnCookStack);
    var n := |s.cookStack| - 1;
    LastOut(s.cookStack, n);
    assert Reverse(s.cookStack[n..]) == [s.cookStack[n]];
    Moved(s, CookEffect(s, i), [s.cookStack[n]], OnCookStack, WithCook(i));
  }

  lemma SeatedHandingOver(s: State, i: int)
    requires AllSeated(s) && CookGuard(s, i) && s.cooks[i].ToHandOver?
    ensures AllSeated(CookEffect(s, i))
  {
    var t := s.cooks[i].order;
    assert Seated(s, WithCook(i)) && Seated(s, OnDeliveryStack);
    assert t in Holding(s, WithCook(i));
    Moved(s, CookEffect(s, i), [t], WithCook(i), OnDeliveryStack);
  }

  lemma CookKeeps(s: State, a: Action)
    requires Guard(s, a) && (a.Cook? || a.Signal?)
    requires a.Cook? ==> !(s.cooks[a.i].PastSem? && s.cookStack != []) && !s.cooks[a.i].ToHandOver?
    ensures var s' := Effect(s, a);
            && s'.ids == s.ids && |s'.sent| == |s.sent| && s'.place == s.place
            && forall p :: Holding(s', p) == Holding(s, p)
  {
    if a.Cook? { CookStays(s, a.i); }
  }

  lemma CookStays(s: State, i: int)
    requires CookGuard(s, i) && !(s.cooks[i].PastSem? && s.cookStack != []) && !s.cooks[i].ToHandOver?
    ensures var s' := CookEffect(s, i);
            && s' == s.(cooks := s.cooks[i := s'.cooks[i]], taskSem := s'.taskSem, capacitySem := s'.capacitySem,
                        toolSem := s'.toolSem, sent := s'.sent)
            && |s'.sent| == |s.sent| && OfCook(s'.cooks[i]) == OfCook(s.cooks[i])
  {
  }

  lemma SeatedTaking(s: State, a: Action)
    requires AllSeated(s) && Guard(s, a) && a.Courier?
    requires s.couriers[a.j].Deciding? && Takes(s, s.couriers[a.j].timedOut)
    ensures AllSeated(Effect(s, a))
  {
    assert Seated(s, WithCourier(a.j)) && Seated(s, OnDeliveryStack);
    var left := |s.deliveryStack| - Min(DELIVERY_CAPACITY, |s.deliveryStack|);
    LastOut(s.deliveryStack, left);
    Moved(s, Effect(s, a), Reverse(s.deliveryStack[left..]), OnDeliveryStack, WithCourier(a.j));
  }

  lemma SeatedDropping(s: State, a: Action)
    requires AllSeated(s) && Guard(s, a) && a.Courier?
    requires s.couriers[a.j].Dropping? && s.couriers[a.j].rest != []
    ensures AllSeated(Effect(s, a))
  {
    var rest := s.couriers[a.j].rest;
    assert Holding(s, WithCourier(a.j)) == rest && rest[0] in rest;
    assert Seated(s, WithCourier(a.j)) && Seated(s, Gone);
    FirstOut(rest);
    Apart(s.gone, [rest[0]]);
    Moved(s, Effect(s, a), [rest[0]], WithCourier(a.j), Gone);
  }

  lemma SeatedCourier(s: State, a: Action)
    requires AllSeated(s) && Guard(s, a) && (a.Courier? || a.TimeOut? || a.CourierWakes?)
    ensures AllSeated(Effect(s, a))
  {
    var c := s.couriers[a.j];
    if a.Courier? && c.Deciding? && Takes(s, c.timedOut) {
      SeatedTaking(s, a);
    } else if a.Courier? && c.Dropping? && c.rest != [] {
      SeatedDropping(s, a);
    } else {
      CourierKeeps(s, a);
      Kept(s, Effect(s, a));
    }
  }

  lemma CourierKeeps(s: State, a: Action)
    requires Guard(s, a) && (a.Courier? || a.TimeOut? || a.CourierWakes?)
    requires a.Courier? ==> !(s.couriers[a.j].Deciding? && Takes(s, s.couriers[a.j].timedOut))
    requires a.Courier? ==> !(s.couriers[a.j].Dropping? && s.couriers[a.j].rest != [])
    ensures var s' := Effect(s, a);
            && s'.ids == s.ids && |s'.sent| == |s.sent| && s'.place == s.place
            && forall p :: Holding(s', p) == Holding(s, p)
  {
    if a.Courier? { CourierStays(s, a.j); }
    SameHands(s, Effect(s, a), a.j);
  }

  lemma CourierStays(s: State, j: int)
    requires CourierGuard(s, j) && !(s.couriers[j].Deciding? && Takes(s, s.couriers[j].timedOut))
    requires !(s.couriers[j].Dropping? && s.couriers[j].rest != [])
    ensures var s' := CourierEffect(s, j);
            && s' == s.(couriers := s.couriers[j := s'.couriers[j]], deliverySem := s'.deliverySem, sent := s'.sent)
            && |s'.sent| == |s.sent| && OfCourier(s'.couriers[j]) == OfCourier(s.couriers[j])
  {
  }

  /** Courier `j` moves and keeps what it has in hand. */
  lemma SameHands(s: State, s': State, j: int)
    requires 0 <= j < |s.couriers| && |s'.couriers| == |s.couriers|
    requires s' == s.(couriers := s.couriers[j := s'.couriers[j]], deliverySem := s'.deliverySem, sent := s'.sent)
    requires OfCourier(s'.couriers[j]) == OfCourier(s.couriers[j])
    ensures forall p :: Holding(s', p) == Holding(s, p)
  {
  }

  // ---------- traces ----------

  lemma ToldManager(s: State, a: Action)
    requires AllSeated(s) && Told(s) && Guard(s, a) && (a.Manager? || a.ManagerWakes? || ByClient(a))
    ensures Told(Effect(s, a))
  {
    var s' := Effect(s, a);
    assert Seated(s, InQueue) && Seated(s, WithManager);
    if a.Cancel? {
      KeepAndDrop(s.ids, s.queue, a.id);
    }
    if a.Manager? && s.mgr.Carrying? {
      assert s.mgr.order in Holding(s, WithManager);
    }
    forall t | 0 <= t < |s'.place| ensures s'.sent[t] == TraceAt(s', t) {
      if t < |s.place| { assert s.sent[t] == TraceAt(s, t); }
    }
  }

  lemma ToldCook(s: State, a: Action)
    requires AllSeated(s) && Told(s) && Guard(s, a) && (a.Cook? || a.Signal?)
    ensures Told(Effect(s, a))
  {
    assert Seated(s, WithCook(a.i)) && Seated(s, OnCookStack);
    if a.Cook? {
      ToldCooking(s, a.i);
    } else {
      forall t | 0 <= t < |s.place| ensures s.sent[t] == TraceAt(Effect(s, a), t) {
        assert s.sent[t] == TraceAt(s, t);
        assert t !in OfCook(s.cooks[a.i]);
      }
    }
  }

  lemma ToldCooking(s: State, i: int)
    requires Told(s) && CookGuard(s, i) && Seated(s, WithCook(i)) && Seated(s, OnCookStack)
    ensures Told(CookEffect(s, i))
  {
    forall t | 0 <= t < |s.place| ensures CookEffect(s, i).sent[t] == TraceAt(CookEffect(s, i), t) {
      assert s.sent[t] == TraceAt(s, t);
      assert t in OfCook(s.cooks[i]) <==> s.place[t] == WithCook(i);
      assert t in s.cookStack <==> s.place[t] == OnCookStack;
      if s.cooks[i].PastSem? && s.cookStack != [] {
        ToldPopping(s, i, t);
      } else {
        ToldOne(s, i, t);
      }
    }
  }

  lemma ToldPopping(s: State, i: int, t: Ticket)
    requires CookGuard(s, i) && s.cooks[i].PastSem? && s.cookStack != []
    requires t < |s.place| == |s.sent| && s.sent[t] == TraceAt(s, t)
    requires s.place[t] != WithCook(i) && (t in s.cookStack <==> s.place[t] == OnCookStack)
    ensures CookEffect(s, i).sent[t] == TraceAt(CookEffect(s, i), t)
  {
  }

  lemma ToldOne(s: State, i: int, t: Ticket)
    requires CookGuard(s, i) && !(s.cooks[i].PastSem? && s.cookStack != [])
    requires t < |s.place| == |s.sent| && s.sent[t] == TraceAt(s, t)
    requires t in OfCook(s.cooks[i]) <==> s.place[t] == WithCook(i)
    ensures CookEffect(s, i).sent[t] == TraceAt(CookEffect(s, i), t)
  {
  }

  lemma ToldCourier(s: State, a: Action)
    requires AllSeated(s) && Told(s) && Guard(s, a) && (a.Courier? || a.TimeOut? || a.CourierWakes?)
    ensures Told(Effect(s, a))
  {
    var s' := Effect(s, a);
    var c := s.couriers[a.j];
    assert Seated(s, WithCourier(a.j)) && Seated(s, OnDeliveryStack);
    assert Holding(s, WithCourier(a.j)) == OfCourier(c);
    if c.Telling? && c.untold != [] {
      assert (c.told + c.untold)[|c.told|] == c.untold[0];
      forall k | 0 <= k < |c.told| ensures c.told[k] != c.untold[0] { assert (c.told + c.untold)[k] == c.told[k]; }
    }
    if a.Courier? && c.Deciding? && Takes(s, c.timedOut) {
      LastOut(s.deliveryStack, |s.deliveryStack| - Min(DELIVERY_CAPACITY, |s.deliveryStack|));
    }
    forall t | 0 <= t < |s'.place| ensures s'.sent[t] == TraceAt(s', t) {
      assert s.sent[t] == TraceAt(s, t);
      assert t in OfCourier(c) <==> s.place[t] == WithCourier(a.j);
      assert t in s.deliveryStack <==> s.place[t] == OnDeliveryStack;
    }
  }
}
