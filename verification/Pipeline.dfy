/** The order pipeline of the server (Final/server.c, Final/common.h) as an interleaving state
    machine: clients, one manager, any number of cooks and couriers, five semaphores and two task
    stacks. Each critical section of `order_mutex` or of a `task_mutex` is one step. */
module Pipeline {
  import opened Sequences

  const OVEN_TOOLS := 3
  const OVEN_CAPACITY := 6
  const DELIVERY_CAPACITY := 3
  const MAX_CLIENTS := 50

  /** What `update_client` sends on the order's own socket. */
  datatype Status = Cooking | InOven | Cooked | Delivering | Delivered

  /** An accepted order is known by its ticket, its position in the order of acceptance. The
      `order_id` that a client puts on it need not be unique. */
  type Ticket = nat

  datatype ManagerPc = AtQueue | Asleep | Carrying(order: Ticket) | Posting

  /** The points of `cook_worker` between its calls, in program order. */
  datatype CookPc =
    | CookIdle
    | PastSem
    | Took(order: Ticket)
    | WantsCapacity(order: Ticket)
    | WantsTool(order: Ticket)
    | HasTool(order: Ticket)
    | Loaded(order: Ticket)
    | Baking(order: Ticket)
    | Removing(order: Ticket)
    | CapacityBack(order: Ticket)
    | Out(order: Ticket)
    | ToHandOver(order: Ticket)
    | Signalling

  /** The points of `delivery_worker`; the batch is split by how far its loops have come. */
  datatype CourierPc =
    | CourierIdle
    | Waiting
    | Deciding(timedOut: bool)
    | Picked(batch: seq<Ticket>)
    | Telling(told: seq<Ticket>, untold: seq<Ticket>)
    | Dropping(rest: seq<Ticket>)

  datatype Place =
    | InQueue | WithManager | OnCookStack | WithCook(i: int) | OnDeliveryStack | WithCourier(j: int)
    | Gone | Cancelled

  /** `ids` are the client's ids by ticket; `sent` the statuses sent for each ticket so far, and
      `place`, `gone` and `cancelled` are histories. */
  datatype State = State(
    ids: seq<int>, queue: seq<Ticket>, mgr: ManagerPc,
    cookStack: seq<Ticket>, taskSem: nat, cooks: seq<CookPc>, toolSem: nat, capacitySem: nat,
    deliveryStack: seq<Ticket>, couriers: seq<CourierPc>, deliverySem: nat,
    sent: seq<seq<Status>>, place: seq<Place>, gone: seq<Ticket>, cancelled: seq<Ticket>)

  datatype Action =
    | Arrive(id: int)
    | Cancel(id: int)
    | Manager
    | Cook(i: int)
    | Signal(i: int, wake: int)
    | Courier(j: int)
    | TimeOut(j: int)
    | ManagerWakes
    | CourierWakes(j: int)

  /** A return from a condition wait that neither a signal nor the timeout caused. */
  predicate Spurious(a: Action) { a.ManagerWakes? || a.CourierWakes? }

  /** Steps of clients; all others are the server's own. */
  predicate ByClient(a: Action) { a.Arrive? || a.Cancel? }

  function Start(cooks: nat, couriers: nat): State {
    State([], [], AtQueue, [], 0, seq(cooks, _ => CookIdle), OVEN_TOOLS, OVEN_CAPACITY,
          [], seq(couriers, _ => CourierIdle), DELIVERY_CAPACITY, [], [], [], [])
  }

  // ---------- moving tickets ----------

  function Relocate(place: seq<Place>, ts: seq<Ticket>, to: Place): (r: seq<Place>)
    ensures |r| == |place|
    ensures forall t :: 0 <= t < |place| ==> r[t] == if t in ts then to else place[t]
  {
    seq(|place|, t requires 0 <= t < |place| => if t in ts then to else place[t])
  }

  function Tell(s: State, t: Ticket, st: Status): seq<seq<Status>> {
    if t < |s.sent| then s.sent[t := s.sent[t] + [st]] else s.sent
  }

  /** `remove_order_from_queue` on tickets: everything but the orders with this id. */
  function Keep(ids: seq<int>, q: seq<Ticket>, id: int): seq<Ticket> {
    Reject(q, HasId(ids, id))
  }

  /** The orders that it throws away. */
  function Drop(ids: seq<int>, q: seq<Ticket>, id: int): seq<Ticket> {
    Reject(q, LacksId(ids, id))
  }

  function HasId(ids: seq<int>, id: int): Ticket -> bool {
    (t: Ticket) => t < |ids| && ids[t] == id
  }

  function LacksId(ids: seq<int>, id: int): Ticket -> bool {
    (t: Ticket) => !(t < |ids| && ids[t] == id)
  }

  function Min(a: nat, b: nat): nat { if a < b then a else b }

  function Reverse(s: seq<Ticket>): seq<Ticket> {
    seq(|s|, k requires 0 <= k < |s| => s[|s| - 1 - k])
  }

  // ---------- the steps ----------

  predicate ManagerGuard(s: State) {
    !s.mgr.Asleep?
  }

  function ManagerEffect(s: State): State {
    match s.mgr
    case AtQueue =>
      if s.queue == [] then s.(mgr := Asleep)
      else s.(queue := s.queue[1..], mgr := Carrying(s.queue[0]), place := Relocate(s.place, [s.queue[0]], WithManager))
    case Carrying(t) =>
      s.(cookStack := s.cookStack + [t], mgr := Posting, place := Relocate(s.place, [t], OnCookStack))
    case Posting => s.(taskSem := s.taskSem + 1, mgr := AtQueue)
    case Asleep => s
  }

  predicate CookGuard(s: State, i: int) {
    && 0 <= i < |s.cooks|
    && match s.cooks[i]
       case CookIdle => s.taskSem > 0
       case WantsCapacity(_) => s.capacitySem > 0
       case WantsTool(_) => s.toolSem > 0
       case Baking(_) => s.toolSem > 0
       case Signalling => false
       case _ => true
  }

  function CookEffect(s: State, i: int): State
    requires CookGuard(s, i)
  {
    match s.cooks[i]
    case CookIdle => s.(cooks := s.cooks[i := PastSem], taskSem := s.taskSem - 1)
    case PastSem =>
      if s.cookStack == [] then s.(cooks := s.cooks[i := CookIdle])
      else
        var t := s.cookStack[|s.cookStack| - 1];
        s.(cooks := s.cooks[i := Took(t)], cookStack := s.cookStack[..|s.cookStack| - 1],
           place := Relocate(s.place, [t], WithCook(i)))
    case Took(t) => s.(cooks := s.cooks[i := WantsCapacity(t)], sent := Tell(s, t, Cooking))
    case WantsCapacity(t) => s.(cooks := s.cooks[i := WantsTool(t)], capacitySem := s.capacitySem - 1)
    case WantsTool(t) => s.(cooks := s.cooks[i := HasTool(t)], toolSem := s.toolSem - 1)
    case HasTool(t) => s.(cooks := s.cooks[i := Loaded(t)], sent := Tell(s, t, InOven))
    case Loaded(t) => s.(cooks := s.cooks[i := Baking(t)], toolSem := s.toolSem + 1)
    case Baking(t) => s.(cooks := s.cooks[i := Removing(t)], toolSem := s.toolSem - 1)
    case Removing(t) => s.(cooks := s.cooks[i := CapacityBack(t)], capacitySem := s.capacitySem + 1)
    case CapacityBack(t) => s.(cooks := s.cooks[i := Out(t)], toolSem := s.toolSem + 1)
    case Out(t) => s.(cooks := s.cooks[i := ToHandOver(t)], sent := Tell(s, t, Cooked))
    case ToHandOver(t) =>
      s.(cooks := s.cooks[i := Signalling], deliveryStack := s.deliveryStack + [t],
         place := Relocate(s.place, [t], OnDeliveryStack))
    case Signalling => s
  }

  predicate Takes(s: State, timedOut: bool) {
    |s.deliveryStack| >= DELIVERY_CAPACITY || (timedOut && |s.deliveryStack| > 0)
  }

  predicate CourierGuard(s: State, j: int) {
    && 0 <= j < |s.couriers|
    && match s.couriers[j]
       case Waiting => false
       case Picked(_) => s.deliverySem > 0
       case _ => true
  }

  function CourierEffect(s: State, j: int): State
    requires CourierGuard(s, j)
  {
    match s.couriers[j]
    case CourierIdle => s.(couriers := s.couriers[j := Waiting])
    case Waiting => s
    case Deciding(timedOut) =>
      if Takes(s, timedOut) then
        var left := |s.deliveryStack| - Min(DELIVERY_CAPACITY, |s.deliveryStack|);
        var batch := Reverse(s.deliveryStack[left..]);
        s.(couriers := s.couriers[j := Picked(batch)], deliveryStack := s.deliveryStack[..left],
           place := Relocate(s.place, batch, WithCourier(j)))
      else s.(couriers := s.couriers[j := CourierIdle])
    case Picked(b) => s.(couriers := s.couriers[j := Telling([], b)], deliverySem := s.deliverySem - 1)
    case Telling(told, untold) =>
      if untold == [] then s.(couriers := s.couriers[j := Dropping(told)])
      else s.(couriers := s.couriers[j := Telling(told + [untold[0]], untold[1..])], sent := Tell(s, untold[0], Delivering))
    case Dropping(rest) =>
      if rest == [] then s.(couriers := s.couriers[j := CourierIdle], deliverySem := s.deliverySem + 1)
      else
        s.(couriers := s.couriers[j := Dropping(rest[1..])], sent := Tell(s, rest[0], Delivered),
           gone := s.gone + [rest[0]], place := Relocate(s.place, [rest[0]], Gone))
  }

  /** A signal on `delivery_cond` wakes one waiting courier if there is one. */
  predicate SignalChoice(s: State, wake: int) {
    if 0 <= wake < |s.couriers| then s.couriers[wake].Waiting?
    else forall j :: 0 <= j < |s.couriers| ==> !s.couriers[j].Waiting?
  }

  predicate Guard(s: State, a: Action) {
    match a
    case Arrive(_) => true
    case Cancel(_) => true
    case Manager => ManagerGuard(s)
    case Cook(i) => CookGuard(s, i)
    case Signal(i, wake) => 0 <= i < |s.cooks| && s.cooks[i].Signalling? && SignalChoice(s, wake)
    case Courier(j) => CourierGuard(s, j)
    case TimeOut(j) => 0 <= j < |s.couriers| && s.couriers[j].Waiting?
    case ManagerWakes => s.mgr.Asleep?
    case CourierWakes(j) => 0 <= j < |s.couriers| && s.couriers[j].Waiting?
  }

  function Effect(s: State, a: Action): State
    requires Guard(s, a)
  {
    match a
    case Arrive(id) =>
      s.(ids := s.ids + [id], queue := s.queue + [|s.ids|], sent := s.sent + [[]], place := s.place + [InQueue],
         mgr := if s.mgr.Asleep? then AtQueue else s.mgr)
    case Cancel(id) =>
      var out := Drop(s.ids, s.queue, id);
      s.(queue := Keep(s.ids, s.queue, id), cancelled := s.cancelled + out, place := Relocate(s.place, out, Cancelled))
    case Manager => ManagerEffect(s)
    case Cook(i) => CookEffect(s, i)
    case Signal(i, wake) =>
      s.(cooks := s.cooks[i := CookIdle],
         couriers := if 0 <= wake < |s.couriers| then s.couriers[wake := Deciding(false)] else s.couriers)
    case Courier(j) => CourierEffect(s, j)
    case TimeOut(j) => s.(couriers := s.couriers[j := Deciding(true)])
    case ManagerWakes => s.(mgr := AtQueue)
    case CourierWakes(j) => s.(couriers := s.couriers[j := Deciding(false)])
  }

  // ---------- runs ----------

  ghost predicate Run(s: State, acts: seq<Action>, t: State)
    decreases |acts|
  {
    if acts == [] then t == s
    else Guard(s, acts[0]) && Run(Effect(s, acts[0]), acts[1..], t)
  }

  /** `s` is reached by the server with this many threads; `main` starts at least one of each. */
  ghost predicate Reaches(cooks: nat, couriers: nat, acts: seq<Action>, s: State) {
    1 <= cooks && 1 <= couriers && Run(Start(cooks, couriers), acts, s)
  }
}
