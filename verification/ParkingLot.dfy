/** The parking lot (Homework3/hw3.c): in each round an owner and an attendant of one vehicle kind
    meet through two semaphores and a lock; any number of rounds, any interleaving. */
module ParkingLot {

  datatype Kind = Automobile | Pickup

  function Spots(k: Kind): nat { if k.Automobile? then 8 else 4 }

  datatype Holder = Nobody | TheOwner | TheAttendant

  /** The variables of one kind: free spots, `newX`, `inChargeforX` and the lock. */
  datatype Side = Side(free: int, arrived: nat, served: nat, lock: Holder)

  /** Points of `carOwner`; `Inside`, `Counted` and `Refused` hold the lock. */
  datatype OwnerPc = OwnerStart | Inside | Counted | Posted | WaitsForAttendant | Refused | OwnerDone | TurnedAway

  /** Points of `carAttendant`; `Parking` and `Parked` hold the lock. */
  datatype AttendantPc = AttendantStart | Called | Parking | Parked | Unlocked | AttendantDone

  /** `round` is the kind whose two threads are running, if any. */
  datatype State = State(automobile: Side, pickup: Side, running: bool, kind: Kind, owner: OwnerPc, attendant: AttendantPc)

  datatype Action = Begin(k: Kind) | Join | Owner | Attendant

  const START := State(Side(8, 0, 0, Nobody), Side(4, 0, 0, Nobody), false, Automobile, OwnerDone, AttendantDone)

  function Of(s: State, k: Kind): Side {
    if k.Automobile? then s.automobile else s.pickup
  }

  function With(s: State, x: Side): State {
    if s.kind.Automobile? then s.(automobile := x) else s.(pickup := x)
  }

  predicate Guard(s: State, a: Action) {
    var x := Of(s, s.kind);
    match a
    case Begin(_) => !s.running
    case Join => s.running && (s.owner.OwnerDone? || s.owner.TurnedAway?) && s.attendant.AttendantDone?
    case Owner =>
      s.running && (match s.owner
                    case OwnerStart => x.lock.Nobody?
                    case WaitsForAttendant => x.served > 0
                    case OwnerDone => false
                    case TurnedAway => false
                    case _ => true)
    case Attendant =>
      s.running && (match s.attendant
                    case AttendantStart => x.arrived > 0
                    case Called => x.lock.Nobody?
                    case AttendantDone => false
                    case _ => true)
  }

  function Effect(s: State, a: Action): State
    requires Guard(s, a)
  {
    var x := Of(s, s.kind);
    match a
    case Begin(k) => s.(running := true, kind := k, owner := OwnerStart, attendant := AttendantStart)
    case Join => s.(running := false)
    case Owner =>
      (match s.owner
       case OwnerStart => With(s, x.(lock := TheOwner)).(owner := Inside)
       case Inside =>
         if x.free > 0 then With(s, x.(free := x.free - 1)).(owner := Counted) else s.(owner := Refused)
       case Counted => With(s, x.(arrived := x.arrived + 1)).(owner := Posted)
       case Posted => With(s, x.(lock := Nobody)).(owner := WaitsForAttendant)
       case WaitsForAttendant => With(s, x.(served := x.served - 1)).(owner := OwnerDone)
       case Refused => With(s, x.(lock := Nobody)).(owner := TurnedAway)
       case _ => s)
    case Attendant =>
      (match s.attendant
       case AttendantStart => With(s, x.(arrived := x.arrived - 1)).(attendant := Called)
       case Called => With(s, x.(lock := TheAttendant)).(attendant := Parking)
       case Parking => With(s, x.(free := x.free + 1)).(attendant := Parked)
       case Parked => With(s, x.(lock := Nobody)).(attendant := Unlocked)
       case Unlocked => With(s, x.(served := x.served + 1)).(attendant := AttendantDone)
       case _ => s)
  }

  ghost predicate Run(s: State, acts: seq<Action>, t: State)
    decreases |acts|
  {
    if acts == [] then t == s else Guard(s, acts[0]) && Run(Effect(s, acts[0]), acts[1..], t)
  }

  // ---------- invariant ----------

  function One(b: bool): int { if b then 1 else 0 }

  predicate Arrived(o: OwnerPc) { o.Posted? || o.WaitsForAttendant? || o.OwnerDone? }

  predicate Took(o: OwnerPc) { o.Counted? || Arrived(o) }

  predicate GaveBack(a: AttendantPc) { a.Parked? || a.Unlocked? || a.AttendantDone? }

  /** A spot is free, or taken by the owner and not yet given back by the attendant; a token is in a
      semaphore between its post and its wait; the lock has the holder that the threads' points say. */
  ghost predicate Balanced(s: State, x: Side, spots: int) {
    && x.free + One(Took(s.owner)) - One(GaveBack(s.attendant)) == spots
    && x.arrived + One(!s.attendant.AttendantStart?) == One(Arrived(s.owner))
    && x.served + One(s.owner.OwnerDone?) == One(s.attendant.AttendantDone?)
    && (x.lock.TheOwner? <==> s.owner.Inside? || s.owner.Counted? || s.owner.Posted?)
    && (x.lock.TheAttendant? <==> s.attendant.Parking? || s.attendant.Parked?)
  }

  ghost predicate AtRest(x: Side, k: Kind) {
    x == Side(Spots(k), 0, 0, Nobody)
  }

  ghost predicate Inv(s: State) {
    && !s.owner.Refused? && !s.owner.TurnedAway?
    && (forall k :: !s.running || k != s.kind ==> AtRest(Of(s, k), k))
    && (s.running ==> Balanced(s, Of(s, s.kind), Spots(s.kind)))
  }

  lemma InvStep(s: State, a: Action)
    requires Inv(s) && Guard(s, a)
    ensures Inv(Effect(s, a))
  {
    if a.Owner? {
      OwnerStep(s);
    } else if a.Attendant? {
      AttendantStep(s);
    } else if a.Begin? {
      assert AtRest(Of(s, a.k), a.k) && AtRest(Of(s, Other(a.k)), Other(a.k));
    } else {
      assert AtRest(Of(s, Other(s.kind)), Other(s.kind));
    }
  }

  function Other(k: Kind): Kind { if k.Automobile? then Pickup else Automobile }

  lemma OwnerStep(s: State)
    requires Inv(s) && Guard(s, Owner)
    ensures Inv(Effect(s, Owner))
  {
    assert AtRest(Of(s, Other(s.kind)), Other(s.kind));
  }

  lemma AttendantStep(s: State)
    requires Inv(s) && Guard(s, Attendant)
    ensures Inv(Effect(s, Attendant))
  {
    assert AtRest(Of(s, Other(s.kind)), Other(s.kind));
  }

  lemma {:induction false} Invariant(s: State, acts: seq<Action>, t: State)
    requires Inv(s) && Run(s, acts, t)
    ensures Inv(t)
    decreases |acts|
  {
    if acts != [] {
      InvStep(s, acts[0]);
      Invariant(Effect(s, acts[0]), acts[1..], t);
    }
  }

  /** For every sequence of vehicle kinds and every interleaving no owner is ever refused, and
      between rounds all spots are free again, the semaphores at zero and the locks free. */
  lemma NobodyTurnedAway(acts: seq<Action>, s: State)
    requires Run(START, acts, s)
    ensures !s.owner.Refused? && !s.owner.TurnedAway?
    ensures !s.running ==> s.automobile == Side(8, 0, 0, Nobody) && s.pickup == Side(4, 0, 0, Nobody)
  {
    Invariant(START, acts, s);
    assert !s.running ==> AtRest(Of(s, Automobile), Automobile) && AtRest(Of(s, Pickup), Pickup);
  }

  /** In every state of every round: the attendant starts only after the owner has announced itself and
      the owner leaves only after the attendant is done; they are never both inside the lock; and one
      spot is missing exactly from the owner's update to the attendant's. */
  lemma Rendezvous(acts: seq<Action>, s: State)
    requires Run(START, acts, s) && s.running
    ensures !s.attendant.AttendantStart? ==> s.owner.Posted? || s.owner.WaitsForAttendant? || s.owner.OwnerDone?
    ensures s.owner.OwnerDone? ==> s.attendant.AttendantDone?
    ensures !((s.owner.Inside? || s.owner.Counted? || s.owner.Posted?) && (s.attendant.Parking? || s.attendant.Parked?))
    ensures var taken := s.owner in {Counted, Posted, WaitsForAttendant, OwnerDone}
                         && s.attendant in {AttendantStart, Called, Parking};
            && s.automobile.free == (if s.kind.Automobile? && taken then 7 else 8)
            && s.pickup.free == (if s.kind.Pickup? && taken then 3 else 4)
  {
    Invariant(START, acts, s);
    Meeting(s);
    OneSpotTaken(s);
  }

  lemma Meeting(s: State)
    requires Inv(s) && s.running
    ensures !s.attendant.AttendantStart? ==> s.owner.Posted? || s.owner.WaitsForAttendant? || s.owner.OwnerDone?
    ensures s.owner.OwnerDone? ==> s.attendant.AttendantDone?
    ensures !((s.owner.Inside? || s.owner.Counted? || s.owner.Posted?) && (s.attendant.Parking? || s.attendant.Parked?))
  {
  }

  lemma OneSpotTaken(s: State)
    requires Inv(s) && s.running
    ensures var taken := s.owner in {Counted, Posted, WaitsForAttendant, OwnerDone}
                         && s.attendant in {AttendantStart, Called, Parking};
            && s.automobile.free == (if s.kind.Automobile? && taken then 7 else 8)
            && s.pickup.free == (if s.kind.Pickup? && taken then 3 else 4)
  {
    assert AtRest(Of(s, Other(s.kind)), Other(s.kind));
    Meeting(s);
    assert Of(s, s.kind).free == Spots(s.kind) - One(Took(s.owner)) + One(GaveBack(s.attendant));
  }

  /** An owner inside the lock is refused exactly if no spot is free, and takes one otherwise. */
  lemma RefusedExactly(s: State)
    requires Guard(s, Owner) && s.owner.Inside?
    ensures var free, t := Of(s, s.kind).free, Effect(s, Owner);
            if free <= 0 then t.owner.Refused? && Of(t, s.kind).free == free
            else t.owner.Counted? && Of(t, s.kind).free == free - 1
  {
  }

  function Left(s: State): nat {
    (match s.owner
     case OwnerStart => 5
     case Inside => 4
     case Counted => 3
     case Posted => 2
     case WaitsForAttendant => 1
     case Refused => 1
     case OwnerDone => 0
     case TurnedAway => 0)
    + (match s.attendant
       case AttendantStart => 5
       case Called => 4
       case Parking => 3
       case Parked => 2
       case Unlocked => 1
       case AttendantDone => 0)
    + (if s.running then 1 else 0)
  }

  /** In a round some thread, or the join, can always move. */
  lemma RoundMoves(s: State) returns (a: Action)
    requires Inv(s) && s.running
    ensures Guard(s, a) && !a.Begin?
  {
    a := if Guard(s, Owner) then Owner else if Guard(s, Attendant) then Attendant else Join;
  }

  /** Whatever the order, every step of a round leaves exactly one fewer to take. */
  lemma StepCounts(s: State, a: Action)
    requires Inv(s) && s.running && Guard(s, a)
    ensures Left(Effect(s, a)) + 1 == Left(s)
  {
    InvStep(s, a);
  }

  /** So each round ends after exactly the steps of its two threads and the join, with the
      owner served. */
  lemma {:induction false} RoundEnds(s: State) returns (acts: seq<Action>, t: State)
    requires Inv(s) && s.running
    ensures Run(s, acts, t) && !t.running && t.owner.OwnerDone? && Inv(t) && |acts| == Left(s)
    decreases Left(s)
  {
    var a := RoundMoves(s);
    InvStep(s, a);
    StepCounts(s, a);
    var m := Effect(s, a);
    if m.running {
      var rest;
      rest, t := RoundEnds(m);
      acts := [a] + rest;
      assert acts[1..] == rest;
    } else {
      acts, t := [a], m;
      assert acts[1..] == [];
    }
  }
}
