/** The theorems about the directory copier, for every tree, every buffer size, every number of
    workers, every pattern of failing system calls and every interleaving. */
module CopierMain {
  import opened Sequences
  import opened Sums
  import opened Tree
  import opened Ring
  import opened Copier
  import opened CopierControl
  import opened CopierData
  import opened CopierCount
  import Barrier

  ghost predicate Inv(c: Config, s: State) {
    Control(c, s) && Files(s) && Conserved(c, s) && Counted(s)
  }

  lemma InvStep(c: Config, s: State, a: Action)
    requires Inv(c, s) && Guard(c, s, a)
    ensures Inv(c, Effect(c, s, a))
  {
    ControlStep(c, s, a);
    FilesStep(c, s, a);
    ConservedStep(c, s, a);
    CountedStep(c, s, a);
  }

  lemma {:induction false} RunKeepsInv(c: Config, s: State, acts: seq<Action>, t: State)
    requires Inv(c, s) && Run(c, s, acts, t)
    ensures Inv(c, t)
    decreases |acts|
  {
    if acts != [] {
      InvStep(c, s, acts[0]);
      RunKeepsInv(c, Effect(c, s, acts[0]), acts[1..], t);
    }
  }

  lemma Invariant(c: Config, acts: seq<Action>, s: State)
    requires Reaches(c, acts, s)
    ensures Inv(c, s)
  {
    ControlStart(c);
    FilesStart(c);
    CountStart(c);
    RunKeepsInv(c, Start(c), acts, s);
  }

  // ---------- exactly-once hand-off ----------

  /** In every reachable state the pairs taken, in order, and then those queued are the pairs
      pushed; the ring never holds more than its size. */
  lemma HandedOverOnce(c: Config, acts: seq<Action>, s: State)
    requires Reaches(c, acts, s)
    ensures Valid(s.shared.ring) && s.taken + Contents(s.shared.ring) == s.pushed
    ensures |Contents(s.shared.ring)| <= c.size
  {
    Invariant(c, acts, s);
  }

  /** Once a worker has left its loop the manager is done, and no other worker finds a pair. */
  lemma StepAfterLeaving(c: Config, s: State, i: int, a: Action)
    requires Control(c, s) && Guard(c, s, a) && 0 <= i < |s.ws| && s.ws[i].AtBarrier?
    ensures !ByManager(a)
    ensures var t := WorkerEffect(c, s, a);
            && 0 <= i < |t.ws| && t.ws[i].AtBarrier?
            && t.shared.ring == s.shared.ring && t.pushed == s.pushed && t.taken == s.taken
  {
    assert !a.PopPair?;
  }

  lemma {:induction false} RunAfterLeaving(c: Config, s: State, i: int, acts: seq<Action>, t: State)
    requires Control(c, s) && 0 <= i < |s.ws| && s.ws[i].AtBarrier? && Run(c, s, acts, t)
    ensures t.shared.ring == s.shared.ring && t.pushed == s.pushed && t.taken == s.taken
    decreases |acts|
  {
    if acts != [] {
      ControlStep(c, s, acts[0]);
      StepAfterLeaving(c, s, i, acts[0]);
      RunAfterLeaving(c, Effect(c, s, acts[0]), i, acts[1..], t);
    }
  }

  /** So from any reachable state in which a worker has left its loop, nothing is ever pushed or taken
      again. */
  lemma RingStaysEmpty(c: Config, before: seq<Action>, s: State, i: int, acts: seq<Action>, t: State)
    requires Reaches(c, before, s) && 0 <= i < |s.ws| && s.ws[i].AtBarrier? && Run(c, s, acts, t)
    ensures t.shared.ring == s.shared.ring && t.shared.ring.count == 0
    ensures t.pushed == s.pushed == t.taken == s.taken
  {
    assert Control(c, s) && HandOff(s) by { Invariant(c, before, s); }
    RunAfterLeaving(c, s, i, acts, t);
    assert Contents(s.shared.ring) == [];
  }

  // ---------- end to end ----------

  /** The destination is what the plan of the tree says, file by file and in order, nothing is
      left open or queued, and the statistics agree. */
  ghost predicate Delivered(c: Config, s: State) {
    && Made(s) == WholePlan(c)
    && (forall k :: 0 <= k < |s.outs| ==> Over(s.outs[k]))
    && s.fds == map[]
    && s.taken == s.pushed && |s.pushed| == |s.outs|
    && s.shared.regularFiles == |s.outs|
    && s.shared.directories == |s.dirs|
    && s.shared.fifos == |s.fifos|
    && s.shared.bytesCopied + SumOf(LostOf, s.outs) == SumOf(Length, s.outs)
  }

  lemma AllPastLoop(c: Config, s: State)
    requires Inv(c, s) && Barrier.AllEntered(s.bar)
    ensures Delivered(c, s)
  {
    EntrantsPastLoop(c, s);
    AllCopied(s);
    AllClosed(s);
    AllMade(c, s);
    AllCounted(s);
  }

  ghost predicate PastLoop(s: State) {
    && s.mgr.ManagerAtBarrier? && (forall i :: 0 <= i < |s.ws| ==> s.ws[i].AtBarrier?)
    && s.taken == s.pushed
  }

  lemma EntrantsPastLoop(c: Config, s: State)
    requires Control(c, s) && HandOff(s) && Barrier.AllEntered(s.bar)
    ensures PastLoop(s)
  {
    forall i | 0 <= i < |s.ws| ensures s.ws[i].AtBarrier? {}
    assert !s.bar.pcs[|s.ws|].Outside?;
    assert s.ws[0].AtBarrier?;
    assert Contents(s.shared.ring) == [];
  }

  lemma AllMade(c: Config, s: State)
    requires PastLoop(s) && Conserved(c, s)
    ensures Made(s) == WholePlan(c)
  {
    JoinNothing(Made(s));
  }

  lemma AllCounted(s: State)
    requires PastLoop(s) && Counted(s)
    ensures s.shared.regularFiles == |s.pushed| && s.shared.directories == |s.dirs| && s.shared.fifos == |s.fifos|
    ensures s.shared.bytesCopied + SumOf(LostOf, s.outs) == SumOf(Length, s.outs)
  {
    IdleSum(s.ws);
  }

  lemma AllCopied(s: State)
    requires PastLoop(s) && HandOff(s) && TakenFiles(s)
    ensures |s.outs| == |s.pushed| && forall k :: 0 <= k < |s.outs| ==> Over(s.outs[k])
  {
    forall k | 0 <= k < |s.outs| ensures Over(s.outs[k]) {
      assert !(exists i :: Copies(s, i, k));
    }
  }

  lemma AllClosed(s: State)
    requires PastLoop(s) && NoLeak(s)
    ensures s.fds == map[]
  {
    forall fd | fd in s.fds ensures false {
      assert !(exists i :: WorkerOwns(s, i, fd));
    }
  }

  /** Under every schedule: when all threads have exited, everything has been delivered. Spurious
      wakeups and failing calls are included. */
  lemma EndToEnd(c: Config, acts: seq<Action>, s: State)
    requires Reaches(c, acts, s) && Barrier.AllExited(s.bar)
    ensures Delivered(c, s)
  {
    Invariant(c, acts, s);
    AllPastLoop(c, s);
  }

  /** Whatever fails, a path has been created exactly if it leads to something through directories that
      could be made and listed, and its own calls succeeded. */
  lemma DestinationUnderFaults(c: Config, acts: seq<Action>, s: State, p: Path, k: Kind)
    requires Reaches(c, acts, s) && Barrier.AllExited(s.bar)
    ensures Plans(Made(s), p, k)
            <==> [] !in c.faults.noList && Leads(c.faults, [], c.root, p, k) && Creatable(c.faults, p, k)
  {
    EndToEnd(c, acts, s);
    PlannedIffPresent(c.faults, [], c.root, p, k);
    assert [] + p == p;
  }

  // ---------- the fault-free case, against the tree ----------

  predicate NoFault(acts: seq<Action>) {
    forall k :: 0 <= k < |acts| ==> !acts[k].ReadFails? && !acts[k].WriteFails?
  }

  ghost predicate Unbroken(s: State) {
    forall k :: 0 <= k < |s.outs| ==> !s.outs[k].broken && s.outs[k].lost == 0
  }

  lemma StepUnbroken(c: Config, s: State, a: Action)
    requires Unbroken(s) && Valid(s.shared.ring) && Guard(c, s, a) && !a.ReadFails? && !a.WriteFails?
    ensures Unbroken(Effect(c, s, a))
  {
    var s' := Effect(c, s, a);
    if a.OpenDestination? {
    } else if a.Write? {
      var k := SlotOfWorker(s, a.i);
      assert s'.outs == s.outs[k := s'.outs[k]];
    } else {
      assert s'.outs == s.outs;
    }
  }

  lemma {:induction false} RunUnbroken(c: Config, s: State, acts: seq<Action>, t: State)
    requires Inv(c, s) && Unbroken(s) && NoFault(acts) && Run(c, s, acts, t)
    ensures Unbroken(t)
    decreases |acts|
  {
    if acts != [] {
      InvStep(c, s, acts[0]);
      StepUnbroken(c, s, acts[0]);
      RunUnbroken(c, Effect(c, s, acts[0]), acts[1..], t);
    }
  }

  function SizeOf(f: Source): nat { |f.content| }

  /** `p` is in the destination, as a file with exactly these bytes, a directory or a FIFO. */
  ghost predicate Present(s: State, p: Path, k: Kind) {
    match k
    case AFile(b) => exists j :: 0 <= j < |s.outs| && s.outs[j].source.path == p && s.outs[j].data == b
    case ADirectory => p in s.dirs
    case AFifo => p in s.fifos
  }

  /** When no call fails and all threads have exited, the destination holds exactly the regular
      files (with their bytes), directories and FIFOs of the source tree, hidden ones included and
      "." and ".." left out, each path once, and the four statistics are their numbers and the sum of
      the file sizes. */
  lemma DestinationEqualsSource(c: Config, acts: seq<Action>, s: State)
    requires Reaches(c, acts, s) && Barrier.AllExited(s.bar)
    requires c.faults == NO_FAULTS && NoFault(acts)
    ensures forall p, k :: NoDots(p) ==> (Present(s, p, k) <==> InTree(c.root, p, k))
    ensures forall p, k :: Present(s, p, k) ==> forall i :: 0 <= i < |p| ==> p[i] != "." && p[i] != ".."
    ensures DistinctNames(c.root) ==>
              && EachOnce(Made(s))
              && NoRepeats(Paths(SourcesOf(s.outs))) && NoRepeats(s.dirs) && NoRepeats(s.fifos)
    ensures s.shared.regularFiles == |WholePlan(c).files| && s.shared.directories == |WholePlan(c).dirs|
    ensures s.shared.fifos == |WholePlan(c).fifos| && s.shared.bytesCopied == SumOf(SizeOf, WholePlan(c).files)
  {
    EndToEnd(c, acts, s);
    NeverBroken(c, acts, s);
    forall p, k ensures Present(s, p, k) <==> InTree(c.root, p, k) && NoDots(p) {
      PresentIffInTree(c, s, p, k);
    }
    if DistinctNames(c.root) {
      PlannedOnce(NO_FAULTS, [], c.root);
      ListsOnce(Made(s));
    }
    BytesCounted(c, s);
  }

  lemma PresentIffInTree(c: Config, s: State, p: Path, k: Kind)
    requires Delivered(c, s) && Unbroken(s) && c.faults == NO_FAULTS
    ensures Present(s, p, k) <==> InTree(c.root, p, k) && NoDots(p)
  {
    LeadsEverywhere([], c.root, p, k);
    PlannedIffPresent(NO_FAULTS, [], c.root, p, k);
    assert [] + p == p;
    PresentIffPlanned(c, s, p, k);
  }

  lemma NeverBroken(c: Config, acts: seq<Action>, s: State)
    requires Reaches(c, acts, s) && NoFault(acts)
    ensures Unbroken(s)
  {
    Invariant(c, [], Start(c));
    RunUnbroken(c, Start(c), acts, s);
  }

  lemma BytesCounted(c: Config, s: State)
    requires Delivered(c, s) && Unbroken(s)
    ensures s.shared.bytesCopied == SumOf(SizeOf, WholePlan(c).files)
  {
    var files := WholePlan(c).files;
    forall k | 0 <= k < |s.outs| ensures Length(s.outs[k]) == SizeOf(files[k]) {
      assert Over(s.outs[k]) && s.outs[k].data + [] == s.outs[k].data;
    }
    SumSame(Length, s.outs, SizeOf, files);
    NothingLost(s.outs);
  }

  lemma {:induction false} NothingLost(outs: seq<Out>)
    requires forall k :: 0 <= k < |outs| ==> outs[k].lost == 0
    ensures SumOf(LostOf, outs) == 0
  {
    if outs != [] { NothingLost(outs[1..]); }
  }

  lemma PresentIffPlanned(c: Config, s: State, p: Path, k: Kind)
    requires Delivered(c, s) && Unbroken(s)
    ensures Present(s, p, k) <==> Plans(WholePlan(c), p, k)
  {
    if k.AFile? {
      var fs := WholePlan(c).files;
      forall j | 0 <= j < |s.outs| ensures fs[j] == s.outs[j].source && s.outs[j].data == fs[j].content {
        assert Over(s.outs[j]) && s.outs[j].data + [] == s.outs[j].data;
      }
      if Source(p, k.content) in fs {
        var j :| 0 <= j < |fs| && fs[j] == Source(p, k.content);
        assert s.outs[j].source.path == p;
      }
    }
  }

  // ---------- no lost wakeup, no deadlock ----------

  lemma UnusedDescriptor(fds: map<int, Desc>) returns (fd: int)
    ensures fd !in fds && 0 <= fd
  {
    fd := AboveAll(fds.Keys);
  }

  lemma {:induction false} AboveAll(ks: set<int>) returns (m: nat)
    ensures forall k :: k in ks ==> k < m
    decreases ks
  {
    m := 0;
    if k :| k in ks {
      var r := AboveAll(ks - {k});
      m := if k < r then r else k + 1;
      forall j | j in ks ensures j < m { assert j == k || j in ks - {k}; }
    }
  }

  lemma ManagerMoves(c: Config, s: State) returns (a: Action)
    requires HoldsMutex(s.mgr) || s.mutex == FREE
    requires !s.mgr.ManagerAtBarrier? && !(s.mgr.Pushing? && s.mgr.phase.Sleeping?)
    ensures Guard(c, s, a) && !Spurious(a) && !a.AtBar?
  {
    var fd := UnusedDescriptor(s.fds);
    match s.mgr
    case Walk =>
      if s.stack == [] { a := FinishWalk; }
      else if s.stack[0].rest == [] { a := CloseDir; }
      else if Skipped(c.faults, s.stack[0].dir, Entry0(s)) { a := SkipEntry; }
      else {
        a := match Entry0(s).node
             case Dir(_) => MakeDir
             case Regular(_) => OpenSource(fd)
             case Fifo => MakeFifo
             case Other => SkipEntry;
      }
    case DirCount(_, _) => a := CountDir;
    case FileCount => a := CountFile;
    case FifoCount => a := CountFifo;
    case DoneSet => a := SetDone;
    case OpenDest(_, f) => a := if f.path in c.faults.noCreate then OpenDestinationFails else OpenDestination(fd);
    case Pushing(_, _, phase) =>
      if phase.Testing? {
        if s.shared.ring.count == s.shared.ring.maxSize { a := ManagerSleeps; }
        else if w :| 0 <= w < |s.ws| && s.ws[w].Asleep? { a := PushPair(w); }
        else { a := PushPair(-1); }
      } else {
        a := ManagerLock;
      }
    case _ => a := ManagerLock;
  }

  lemma WorkerMoves(c: Config, s: State, i: int) returns (a: Action)
    requires Runs(c) && 0 <= i < |s.ws| && WorkerFile(s, i) && Awake(s.ws[i])
    requires WorkerHolds(s.ws[i]) || s.mutex == FREE
    ensures Guard(c, s, a) && !Spurious(a) && !a.AtBar?
  {
    if s.ws[i].Test? {
      a := if s.shared.ring.count != 0 then PopPair(i) else if s.shared.done then Finish(i) else WorkerSleeps(i);
    } else if s.ws[i].Busy? {
      a := match s.ws[i].copy
           case Reading => if s.fds[s.ws[i].src].rest == [] then ReadEnds(i) else Read(i, 1)
           case Writing(_) => Write(i)
           case BytesLock(_) => WorkerLock(i)
           case BytesAdd(_) => AddBytes(i)
           case CloseSource => CloseSrc(i)
           case CloseDest => CloseDst(i);
    } else {
      a := WorkerLock(i);
    }
  }

  /** In every reachable state in which some thread has not exited, a step other than a spurious
      wakeup is enabled: no wakeup is lost and there is no deadlock. */
  lemma NoDeadlock(c: Config, acts: seq<Action>, s: State) returns (a: Action)
    requires Reaches(c, acts, s) && !Barrier.AllExited(s.bar)
    ensures Guard(c, s, a) && !Spurious(a)
  {
    Invariant(c, acts, s);
    a := Enabled(c, s);
  }

  lemma Enabled(c: Config, s: State) returns (a: Action)
    requires Inv(c, s) && !Barrier.AllExited(s.bar)
    ensures Guard(c, s, a) && !Spurious(a)
    ensures a.AtBar? ==> AllArrived(s)
  {
    if s.mutex == |s.ws| {
      a := ManagerMoves(c, s);
    } else if s.mutex != FREE {
      assert WorkerFile(s, s.mutex);
      a := WorkerMoves(c, s, s.mutex);
    } else if SomeAwake(s.ws) {
      var i :| 0 <= i < |s.ws| && Awake(s.ws[i]);
      assert WorkerFile(s, i);
      a := WorkerMoves(c, s, i);
    } else if !s.mgr.ManagerAtBarrier? {
      a := ManagerMoves(c, s);
    } else {
      a := BarrierMoves(c, s);
    }
  }

  /** The manager is past the walk and nobody is left in the workers' loop who could move. */
  predicate AllArrived(s: State) {
    s.mgr.ManagerAtBarrier? && !SomeAwake(s.ws)
  }

  /** Nobody is awake in a loop and the manager is past the walk: the barrier moves. */
  lemma BarrierMoves(c: Config, s: State) returns (a: Action)
    requires Control(c, s) && AllArrived(s) && !Barrier.AllExited(s.bar)
    ensures Guard(c, s, a) && !Spurious(a)
  {
    forall t | 0 <= t < |s.bar.pcs| ensures !s.bar.pcs[t].Outside? {
      if t < |s.ws| { assert !Awake(s.ws[t]); }
    }
    var t, b := Barrier.Progress(s.bar);
    a := AtBar(t, b);
  }
}
