/** Descriptor discipline of the copier: every open descriptor has one owner and is closed as
    often as it is opened, and there are never more than two for each ring place and each thread. */
module CopierDescriptors {
  import opened Ring
  import opened Copier
  import opened CopierData
  import opened CopierMain
  import Barrier

  datatype Owner = Manager | Queue(place: int) | Worker(i: int)

  ghost predicate IsOwner(s: State, o: Owner, fd: int) {
    match o
    case Manager => ManagerOwns(s, fd)
    case Queue(j) => QueueOwns(s, j, fd)
    case Worker(i) => WorkerOwns(s, i, fd)
  }

  /** What owner `o` says about the file that its descriptor belongs to. */
  lemma OwnerKnows(s: State, o: Owner, fd: int)
    requires Files(s) && IsOwner(s, o, fd)
    ensures fd in s.fds
    ensures match o
            case Manager => s.fds[fd].slot >= |s.pushed|
            case Queue(j) => s.fds[fd].slot == j && |s.taken| <= j < |s.pushed|
            case Worker(i) => s.fds[fd].slot < |s.taken| && Copies(s, i, s.fds[fd].slot)
  {
    match o
    case Manager =>
    case Queue(j) => assert Fresh(s, s.pushed[j].0, s.pushed[j].1, j);
    case Worker(i) => assert WorkerFile(s, i);
  }

  /** In every reachable state each open descriptor belongs to exactly one of the manager, one ring
      place and one worker, and nobody holds a descriptor that is closed. */
  lemma OneOwnerEach(c: Config, acts: seq<Action>, s: State, fd: int)
    requires Reaches(c, acts, s)
    ensures fd in s.fds <==> exists o :: IsOwner(s, o, fd)
    ensures forall o, p :: IsOwner(s, o, fd) && IsOwner(s, p, fd) ==> o == p
  {
    Invariant(c, acts, s);
    forall o, p | IsOwner(s, o, fd) && IsOwner(s, p, fd) ensures o == p {
      OwnerKnows(s, o, fd);
      OwnerKnows(s, p, fd);
    }
    if o :| IsOwner(s, o, fd) {
      OwnerKnows(s, o, fd);
    }
    if fd in s.fds {
      if s.fds[fd].slot < |s.taken| {
        var i :| WorkerOwns(s, i, fd);
        assert IsOwner(s, Worker(i), fd);
      } else if QueueOwns(s, s.fds[fd].slot, fd) {
        assert IsOwner(s, Queue(s.fds[fd].slot), fd);
      } else {
        assert IsOwner(s, Manager, fd);
      }
    }
  }

  /** The descriptor that a close names, if the action is a close. */
  function Closes(s: State, a: Action): set<int>
    requires (a.CloseSrc? || a.CloseDst?) ==> 0 <= a.i < |s.ws| && s.ws[a.i].Busy?
    requires a.OpenDestinationFails? ==> s.mgr.OpenDest?
  {
    match a
    case CloseSrc(i) => {s.ws[i].src}
    case CloseDst(i) => {s.ws[i].dst}
    case OpenDestinationFails => {s.mgr.src}
    case _ => {}
  }

  function Opens(a: Action): set<int> {
    match a
    case OpenSource(fd) => {fd}
    case OpenDestination(fd) => {fd}
    case _ => {}
  }

  /** In every reachable state a close names a descriptor that is open, an open one that is not, and no
      other step changes which descriptors are open. */
  lemma ClosesAreOpen(c: Config, acts: seq<Action>, s: State, a: Action)
    requires Reaches(c, acts, s) && Guard(c, s, a)
    ensures Closes(s, a) <= s.fds.Keys && Opens(a) !! s.fds.Keys
    ensures Valid(s.shared.ring) && Effect(c, s, a).fds.Keys == s.fds.Keys - Closes(s, a) + Opens(a)
  {
    assert Valid(s.shared.ring) && ManagerFile(s) && WorkerFiles(s) by { Invariant(c, acts, s); }
    StepKeys(c, s, a);
  }

  lemma StepKeys(c: Config, s: State, a: Action)
    requires Valid(s.shared.ring) && ManagerFile(s) && WorkerFiles(s) && Guard(c, s, a)
    ensures Closes(s, a) <= s.fds.Keys && Opens(a) !! s.fds.Keys
    ensures Effect(c, s, a).fds.Keys == s.fds.Keys - Closes(s, a) + Opens(a)
  {
    KeysNamed(c, s, a);
    if ByManager(a) { ManagerKeys(c, s, a); } else { WorkerKeys(c, s, a); }
  }

  lemma KeysNamed(c: Config, s: State, a: Action)
    requires ManagerFile(s) && WorkerFiles(s) && Guard(c, s, a)
    ensures Closes(s, a) <= s.fds.Keys && Opens(a) !! s.fds.Keys
  {
    if a.CloseSrc? || a.CloseDst? {
      assert WorkerFile(s, a.i);
    }
  }

  lemma ManagerKeys(c: Config, s: State, a: Action)
    requires Valid(s.shared.ring) && Guard(c, s, a) && ByManager(a)
    ensures ManagerEffect(c, s, a).fds.Keys == s.fds.Keys - Closes(s, a) + Opens(a)
  {
    if !a.OpenSource? && !a.OpenDestination? && !a.OpenDestinationFails? {
      assert ManagerEffect(c, s, a).fds == s.fds;
    }
  }

  lemma WorkerKeys(c: Config, s: State, a: Action)
    requires Valid(s.shared.ring) && Guard(c, s, a) && !ByManager(a)
    ensures WorkerEffect(c, s, a).fds.Keys == s.fds.Keys - Closes(s, a) + Opens(a)
  {
    if !a.Read? && !a.CloseSrc? && !a.CloseDst? {
      assert WorkerEffect(c, s, a).fds == s.fds;
    }
  }

  // ---------- opened and closed over a whole run ----------

  function Bit(b: bool): nat { if b then 1 else 0 }

  /** How often `fd` is opened in a run, and how often it is closed. */
  function TimesOpened(acts: seq<Action>, fd: int): nat {
    if acts == [] then 0 else Bit(fd in Opens(acts[0])) + TimesOpened(acts[1..], fd)
  }

  ghost function TimesClosed(c: Config, s: State, acts: seq<Action>, t: State, fd: int): nat
    requires Run(c, s, acts, t)
    decreases |acts|
  {
    if acts == [] then 0
    else Bit(fd in Closes(s, acts[0])) + TimesClosed(c, Effect(c, s, acts[0]), acts[1..], t, fd)
  }

  lemma StepBalances(c: Config, s: State, a: Action, fd: int)
    requires Valid(s.shared.ring) && ManagerFile(s) && WorkerFiles(s) && Guard(c, s, a)
    ensures Bit(fd in s.fds) + Bit(fd in Opens(a)) == Bit(fd in Closes(s, a)) + Bit(fd in Effect(c, s, a).fds)
  {
    StepKeys(c, s, a);
    assert fd in Effect(c, s, a).fds <==> fd in Effect(c, s, a).fds.Keys;
  }

  lemma {:induction false} RunBalances(c: Config, s: State, acts: seq<Action>, t: State, fd: int)
    requires Inv(c, s) && Run(c, s, acts, t)
    ensures Bit(fd in s.fds) + TimesOpened(acts, fd) == TimesClosed(c, s, acts, t, fd) + Bit(fd in t.fds)
    decreases |acts|
  {
    if acts != [] {
      InvStep(c, s, acts[0]);
      StepBalances(c, s, acts[0], fd);
      RunBalances(c, Effect(c, s, acts[0]), acts[1..], t, fd);
    }
  }

  /** In every run each descriptor has been closed as often as it has been opened, or once less
      while it is open; and exactly as often when all threads have exited, whatever has failed on
      the way. */
  lemma ClosedAsOftenAsOpened(c: Config, acts: seq<Action>, s: State, fd: int)
    requires Reaches(c, acts, s)
    ensures TimesOpened(acts, fd) == TimesClosed(c, Start(c), acts, s, fd) + (if fd in s.fds then 1 else 0)
    ensures Barrier.AllExited(s.bar) ==> TimesOpened(acts, fd) == TimesClosed(c, Start(c), acts, s, fd)
  {
    Invariant(c, [], Start(c));
    RunBalances(c, Start(c), acts, s, fd);
    if Barrier.AllExited(s.bar) { EndToEnd(c, acts, s); }
  }

  // ---------- how many ----------

  function OfWorkers(ws: seq<WorkerPc>): (r: seq<int>)
    ensures |r| <= 2 * |ws|
  {
    if ws == [] then []
    else (if ws[0].Busy? then [ws[0].src, ws[0].dst] else []) + OfWorkers(ws[1..])
  }

  function OfPairs(ps: seq<Pair>): (r: seq<int>)
    ensures |r| == 2 * |ps|
  {
    if ps == [] then [] else [ps[0].0, ps[0].1] + OfPairs(ps[1..])
  }

  function OfManager(m: ManagerPc): (r: seq<int>)
    ensures |r| <= 2
  {
    if m.OpenDest? then [m.src] else if m.Pushing? then [m.psrc, m.pdst] else []
  }

  lemma {:induction false} InWorkers(ws: seq<WorkerPc>, i: int)
    requires 0 <= i < |ws| && ws[i].Busy?
    ensures ws[i].src in OfWorkers(ws) && ws[i].dst in OfWorkers(ws)
  {
    if i > 0 { InWorkers(ws[1..], i - 1); }
  }

  lemma {:induction false} InPairs(ps: seq<Pair>, j: int)
    requires 0 <= j < |ps|
    ensures ps[j].0 in OfPairs(ps) && ps[j].1 in OfPairs(ps)
  {
    if j > 0 { InPairs(ps[1..], j - 1); }
  }

  lemma {:induction false} NoMoreThanListed(xs: set<int>, l: seq<int>)
    requires forall x :: x in xs ==> x in l
    ensures |xs| <= |l|
  {
    if l == [] {
      forall x ensures x !in xs {}
    } else {
      NoMoreThanListed(xs - {l[0]}, l[1..]);
      assert xs <= (xs - {l[0]}) + {l[0]};
    }
  }

  /** Every descriptor that may be open, in a list of two for each place. */
  ghost function Listed(s: State): seq<int>
    requires Valid(s.shared.ring)
  {
    OfWorkers(s.ws) + OfPairs(Contents(s.shared.ring)) + OfManager(s.mgr)
  }

  lemma OwnedIsListed(s: State, o: Owner, fd: int)
    requires HandOff(s) && IsOwner(s, o, fd)
    ensures fd in Listed(s)
  {
    var q := Contents(s.shared.ring);
    match o
    case Worker(i) => InWorkers(s.ws, i);
    case Queue(j) => QueuedIsListed(s.taken, q, s.pushed, j, fd);
    case Manager => assert fd in OfManager(s.mgr);
  }

  lemma QueuedIsListed(taken: seq<Pair>, q: seq<Pair>, pushed: seq<Pair>, j: int, fd: int)
    requires taken + q == pushed && |taken| <= j < |pushed| && (pushed[j].0 == fd || pushed[j].1 == fd)
    ensures fd in OfPairs(q)
  {
    assert pushed[j] == q[j - |taken|];
    InPairs(q, j - |taken|);
  }

  /** At most two descriptors for each place of the ring, each worker and the manager. */
  lemma DescriptorBound(c: Config, acts: seq<Action>, s: State)
    requires Reaches(c, acts, s)
    ensures |s.fds| <= 2 * (c.size + c.workers + 1)
  {
    assert HandOff(s) && s.shared.ring.maxSize == c.size && |s.ws| == c.workers by { Invariant(c, acts, s); }
    forall fd | fd in s.fds.Keys ensures fd in Listed(s) {
      OneOwnerEach(c, acts, s, fd);
      var o :| IsOwner(s, o, fd);
      OwnedIsListed(s, o, fd);
    }
    NoMoreThanListed(s.fds.Keys, Listed(s));
    assert |s.fds| == |s.fds.Keys|;
  }
}
