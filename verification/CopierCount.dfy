/** Conservation in the copier: what has been created, what is in hand and what the walk has still
    to visit add up to the plan of the tree, and the four statistics count it. */
module CopierCount {
  import opened Sums
  import opened Tree
  import opened Ring
  import opened Copier
  import opened CopierData

  function SourcesOf(outs: seq<Out>): (r: seq<Source>)
    ensures |r| == |outs| && forall k :: 0 <= k < |outs| ==> r[k] == outs[k].source
  {
    seq(|outs|, k requires 0 <= k < |outs| => outs[k].source)
  }

  function Made(s: State): Plan {
    Plan(SourcesOf(s.outs), s.dirs, s.fifos)
  }

  function Listing(c: Config, dir: Path, es: seq<Entry>): Plan {
    if dir in c.faults.noList then NOTHING else PlanAll(c.faults, dir, es)
  }

  /** What the manager is in the middle of creating. */
  function InHand(c: Config, m: ManagerPc): Plan {
    match m
    case DirLock(dir, es) => Listing(c, dir, es)
    case DirCount(dir, es) => Listing(c, dir, es)
    case OpenDest(_, file) => if file.path in c.faults.noCreate then NOTHING else Plan([file], [], [])
    case _ => NOTHING
  }

  /** What the open directory streams have still to deliver, innermost first. */
  function Ahead(c: Config, stack: seq<Frame>): Plan {
    if stack == [] then NOTHING
    else Join(PlanAll(c.faults, stack[0].dir, stack[0].rest), Ahead(c, stack[1..]))
  }

  predicate WalkOver(m: ManagerPc) {
    m.DoneLock? || m.DoneSet? || m.ManagerAtBarrier?
  }

  ghost predicate Conserved(c: Config, s: State) {
    && WholePlan(c) == Join(Made(s), Join(InHand(c, s.mgr), Ahead(c, s.stack)))
    && (WalkOver(s.mgr) ==> s.stack == [])
  }

  function Pending(b: bool): nat { if b then 1 else 0 }

  function InFlight(w: WorkerPc): nat {
    if w.Busy? && w.copy.BytesLock? then w.copy.n
    else if w.Busy? && w.copy.BytesAdd? then w.copy.n
    else 0
  }

  function Length(o: Out): nat { |o.data| }

  function LostOf(o: Out): nat { o.lost }

  /** The statistics lag behind by what is between its own critical section and the next. */
  ghost predicate Counted(s: State) {
    && s.shared.regularFiles + Pending(s.mgr.FileLock? || s.mgr.FileCount?) == |s.pushed|
    && s.shared.directories + Pending(s.mgr.DirLock? || s.mgr.DirCount?) == |s.dirs|
    && s.shared.fifos + Pending(s.mgr.FifoLock? || s.mgr.FifoCount?) == |s.fifos|
    && s.shared.bytesCopied + SumOf(InFlight, s.ws) + SumOf(LostOf, s.outs) == SumOf(Length, s.outs)
  }

  lemma {:induction false} IdleSum(ws: seq<WorkerPc>)
    requires forall i :: 0 <= i < |ws| ==> InFlight(ws[i]) == 0
    ensures SumOf(InFlight, ws) == 0
  {
    if ws != [] { IdleSum(ws[1..]); }
  }

  lemma CountStart(c: Config)
    ensures Conserved(c, Start(c)) && Counted(Start(c))
  {
    var s := Start(c);
    IdleSum(s.ws);
    if [] !in c.faults.noList {
      assert Ahead(c, s.stack[1..]) == NOTHING;
    }
    JoinNothing(WholePlan(c));
  }

  // ---------- the walk ----------

  /** Moving the first entry of the innermost directory from ahead into hand. */
  lemma AheadFirst(c: Config, s: State)
    requires AtEntry(s)
    ensures Ahead(c, s.stack) == Join(PlanOf(c.faults, s.stack[0].dir, Entry0(s)), Ahead(c, DropEntry(s).stack))
  {
    var f := s.stack[0];
    var t := DropEntry(s).stack;
    assert t[1..] == s.stack[1..];
    JoinAssoc(PlanOf(c.faults, f.dir, f.rest[0]), PlanAll(c.faults, f.dir, f.rest[1..]), Ahead(c, s.stack[1..]));
  }

  lemma Shift(m: Plan, h: Plan, e: Plan, r: Plan, m': Plan, h': Plan)
    requires Join(m, Join(h, e)) == Join(m', h')
    ensures Join(m, Join(h, Join(e, r))) == Join(m', Join(h', r))
  {
    JoinAssoc(m, Join(h, e), r);
    JoinAssoc(h, e, r);
    JoinAssoc(m', h', r);
  }

  lemma EntryTaken(c: Config, s: State, a: Action)
    requires !s.mgr.OpenDest? && Guard(c, s, a) && Valid(s.shared.ring)
    requires a.SkipEntry? || a.MakeDir? || a.MakeFifo? || a.OpenSource?
    ensures var s' := ManagerEffect(c, s, a); var e := PlanOf(c.faults, s.stack[0].dir, Entry0(s));
            s'.stack == DropEntry(s).stack && Join(Made(s), e) == Join(Made(s'), InHand(c, s'.mgr))
  {
  }

  lemma ConservedEntry(c: Config, s: State, a: Action)
    requires Conserved(c, s) && Guard(c, s, a) && Valid(s.shared.ring)
    requires a.SkipEntry? || a.MakeDir? || a.MakeFifo? || a.OpenSource?
    ensures Conserved(c, Effect(c, s, a))
  {
    var s', e := Effect(c, s, a), PlanOf(c.faults, s.stack[0].dir, Entry0(s));
    AheadFirst(c, s);
    EntryTaken(c, s, a);
    JoinNothing(e);
    Shift(Made(s), NOTHING, e, Ahead(c, s'.stack), Made(s'), InHand(c, s'.mgr));
  }

  lemma ConservedStack(c: Config, s: State, a: Action)
    requires Conserved(c, s) && Guard(c, s, a) && Valid(s.shared.ring)
    requires a.CloseDir? || a.CountDir?
    ensures Conserved(c, ManagerEffect(c, s, a))
  {
    var s' := ManagerEffect(c, s, a);
    if a.CloseDir? {
      JoinNothing(Ahead(c, s'.stack));
    } else if s.mgr.dir !in c.faults.noList {
      assert s'.stack[1..] == s.stack;
      JoinNothing(Ahead(c, s'.stack));
    }
  }

  lemma ConservedOpen(c: Config, s: State, a: Action)
    requires Conserved(c, s) && Guard(c, s, a) && Valid(s.shared.ring)
    requires a.OpenDestination?
    ensures Conserved(c, ManagerEffect(c, s, a))
  {
    var s' := ManagerEffect(c, s, a);
    var h := InHand(c, s.mgr);
    assert SourcesOf(s'.outs) == SourcesOf(s.outs) + [s.mgr.file];
    assert Made(s') == Join(Made(s), h);
    JoinAssoc(Made(s), h, Ahead(c, s.stack));
    JoinNothing(Ahead(c, s.stack));
  }

  lemma ConservedStep(c: Config, s: State, a: Action)
    requires Conserved(c, s) && Guard(c, s, a) && Valid(s.shared.ring)
    ensures Conserved(c, Effect(c, s, a))
  {
    if a.SkipEntry? || a.MakeDir? || a.MakeFifo? || a.OpenSource? {
      ConservedEntry(c, s, a);
    } else if a.CloseDir? || a.CountDir? {
      ConservedStack(c, s, a);
    } else if a.OpenDestination? {
      ConservedOpen(c, s, a);
    } else {
      CreatesNothing(c, s, a);
      ConservedFrame(c, s, Effect(c, s, a));
    }
  }

  /** A step that creates nothing and leaves the walk where it is. */
  ghost predicate SameWalk(c: Config, s: State, s': State) {
    && SourcesOf(s'.outs) == SourcesOf(s.outs) && s'.dirs == s.dirs && s'.fifos == s.fifos
    && s'.stack == s.stack && InHand(c, s'.mgr) == InHand(c, s.mgr)
    && (WalkOver(s'.mgr) ==> WalkOver(s.mgr) || s.stack == [])
  }

  lemma ConservedFrame(c: Config, s: State, s': State)
    requires Conserved(c, s) && SameWalk(c, s, s')
    ensures Conserved(c, s')
  {
  }

  lemma CreatesNothing(c: Config, s: State, a: Action)
    requires Guard(c, s, a) && Valid(s.shared.ring)
    requires !a.SkipEntry? && !a.MakeDir? && !a.MakeFifo? && !a.OpenSource?
    requires !a.CloseDir? && !a.CountDir? && !a.OpenDestination?
    ensures SameWalk(c, s, Effect(c, s, a))
  {
    if ByManager(a) { ManagerCreatesNothing(c, s, a); } else { WorkerCreatesNothing(c, s, a); }
  }

  lemma ManagerCreatesNothing(c: Config, s: State, a: Action)
    requires Guard(c, s, a) && Valid(s.shared.ring) && ByManager(a)
    requires !a.SkipEntry? && !a.MakeDir? && !a.MakeFifo? && !a.OpenSource?
    requires !a.CloseDir? && !a.CountDir? && !a.OpenDestination?
    ensures SameWalk(c, s, ManagerEffect(c, s, a))
  {
  }

  lemma WorkerCreatesNothing(c: Config, s: State, a: Action)
    requires Guard(c, s, a) && Valid(s.shared.ring) && !ByManager(a)
    ensures SameWalk(c, s, WorkerEffect(c, s, a))
  {
    SameSources(s.outs, WorkerEffect(c, s, a).outs);
  }

  lemma SameSources(outs: seq<Out>, outs': seq<Out>)
    requires |outs'| == |outs| && forall k :: 0 <= k < |outs| ==> outs'[k].source == outs[k].source
    ensures SourcesOf(outs') == SourcesOf(outs)
  {
  }

  // ---------- the counters ----------

  lemma CountedOpen(c: Config, s: State, a: Action)
    requires Counted(s) && Valid(s.shared.ring) && Guard(c, s, a) && a.OpenDestination?
    ensures Counted(ManagerEffect(c, s, a))
  {
    var o := Out(s.mgr.file, [], false, 0);
    SumAppend(LostOf, s.outs, [o]);
    SumAppend(Length, s.outs, [o]);
    SumOne(LostOf, o);
    SumOne(Length, o);
  }

  lemma CountedManager(c: Config, s: State, a: Action)
    requires Counted(s) && Valid(s.shared.ring) && Guard(c, s, a) && ByManager(a) && !a.OpenDestination?
    ensures Counted(ManagerEffect(c, s, a))
  {
    var s' := ManagerEffect(c, s, a);
    SumSame(InFlight, s.ws, InFlight, s'.ws);
    assert s'.outs == s.outs && s'.shared.bytesCopied == s.shared.bytesCopied;
  }

  /** A step of worker `w` that moves bytes between its hands, the record of file `k` and the
      total, and touches no other counter. */
  lemma CountedMove(s: State, s': State, w: nat, k: nat)
    requires Counted(s) && w < |s.ws| && k < |s.outs| && |s'.ws| == |s.ws| && |s'.outs| == |s.outs|
    requires s'.ws == s.ws[w := s'.ws[w]] && s'.outs == s.outs[k := s'.outs[k]]
    requires s'.mgr == s.mgr && s'.pushed == s.pushed && s'.dirs == s.dirs && s'.fifos == s.fifos
    requires s'.shared == s.shared.(bytesCopied := s'.shared.bytesCopied)
    requires s'.shared.bytesCopied + InFlight(s'.ws[w]) + LostOf(s'.outs[k]) + Length(s.outs[k])
             == s.shared.bytesCopied + InFlight(s.ws[w]) + LostOf(s.outs[k]) + Length(s'.outs[k])
    ensures Counted(s')
  {
    SumUpdate(InFlight, s.ws, w, s'.ws[w]);
    SumUpdate(LostOf, s.outs, k, s'.outs[k]);
    SumUpdate(Length, s.outs, k, s'.outs[k]);
  }

  lemma CountedWrite(c: Config, s: State, a: Action)
    requires Counted(s) && Valid(s.shared.ring) && Guard(c, s, a) && (a.ReadFails? || a.Write? || a.WriteFails?)
    requires 0 <= a.i < |s.ws| && WorkerFile(s, a.i)
    ensures Counted(WorkerEffect(c, s, a))
  {
    var s', k := WorkerEffect(c, s, a), SlotOfWorker(s, a.i);
    assert s'.outs == s.outs[k := s'.outs[k]];
    CountedMove(s, s', a.i, k);
  }

  lemma CountedAdd(c: Config, s: State, a: Action)
    requires Counted(s) && Valid(s.shared.ring) && Guard(c, s, a)
    requires a.AddBytes? && WorkerFile(s, a.i)
    ensures Counted(WorkerEffect(c, s, a))
  {
    var s', k := WorkerEffect(c, s, a), SlotOfWorker(s, a.i);
    assert s'.outs == s.outs[k := s'.outs[k]];
    CountedMove(s, s', a.i, k);
  }

  /** The worker's other steps. */
  lemma CountedWorker(c: Config, s: State, a: Action)
    requires Counted(s) && Valid(s.shared.ring) && Guard(c, s, a) && !ByManager(a)
    requires !a.ReadFails? && !a.Write? && !a.WriteFails? && !a.AddBytes?
    ensures Counted(WorkerEffect(c, s, a))
  {
    if a.Read? || a.ReadEnds? || a.CloseSrc? || a.CloseDst? {
      CopyMovesNoBytes(c, s, a);
    } else {
      WorkerMovesNoBytes(c, s, a);
    }
    CountedFrame(s, WorkerEffect(c, s, a));
  }

  /** A step that moves no bytes and touches no counter. */
  ghost predicate SameCounts(s: State, s': State) {
    && |s'.ws| == |s.ws| && (forall i :: 0 <= i < |s.ws| ==> InFlight(s'.ws[i]) == InFlight(s.ws[i]))
    && s'.outs == s.outs && s'.pushed == s.pushed && s'.dirs == s.dirs && s'.fifos == s.fifos
    && s'.shared == s.shared.(ring := s'.shared.ring)
    && Pending(s'.mgr.FileLock? || s'.mgr.FileCount?) == Pending(s.mgr.FileLock? || s.mgr.FileCount?)
    && Pending(s'.mgr.DirLock? || s'.mgr.DirCount?) == Pending(s.mgr.DirLock? || s.mgr.DirCount?)
    && Pending(s'.mgr.FifoLock? || s'.mgr.FifoCount?) == Pending(s.mgr.FifoLock? || s.mgr.FifoCount?)
  }

  lemma CountedFrame(s: State, s': State)
    requires Counted(s) && SameCounts(s, s')
    ensures Counted(s')
  {
    SumSame(InFlight, s.ws, InFlight, s'.ws);
  }

  lemma WorkerMovesNoBytes(c: Config, s: State, a: Action)
    requires Valid(s.shared.ring) && Guard(c, s, a)
    requires a.AtBar? || a.WorkerLock? || a.WorkerSleeps? || a.PopPair? || a.Finish? || a.WakeWorker?
    ensures SameCounts(s, WorkerEffect(c, s, a))
  {
  }

  lemma CopyMovesNoBytes(c: Config, s: State, a: Action)
    requires Valid(s.shared.ring) && Guard(c, s, a)
    requires a.Read? || a.ReadEnds? || a.CloseSrc? || a.CloseDst?
    ensures SameCounts(s, WorkerEffect(c, s, a))
  {
  }

  lemma CountedStep(c: Config, s: State, a: Action)
    requires Counted(s) && Files(s) && Guard(c, s, a)
    ensures Counted(Effect(c, s, a))
  {
    if a.OpenDestination? { CountedOpen(c, s, a); }
    else if ByManager(a) { CountedManager(c, s, a); }
    else if a.ReadFails? || a.Write? || a.WriteFails? { assert WorkerFile(s, a.i); CountedWrite(c, s, a); }
    else if a.AddBytes? { assert WorkerFile(s, a.i); CountedAdd(c, s, a); }
    else { CountedWorker(c, s, a); }
  }
}
