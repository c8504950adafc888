/** Every run of the copier is finite: a measure over the tree still to be walked, the bytes still
    to be copied, the ring, the sleepers and the barrier goes down with every step of every
    thread, and a spurious wakeup raises it by no more than a constant. */
module CopierTermination {
  import opened Sums
  import opened Tree
  import opened Ring
  import opened Copier
  import opened CopierData
  import opened CopierMain
  import Barrier

  function EntryWeight(e: Entry): nat
    decreases e
  {
    match e.node
    case Dir(es) => 4 + EntriesWeight(es)
    case Regular(b) => 16 + 4 * |b|
    case Fifo => 3
    case Other => 1
  }

  function EntriesWeight(es: seq<Entry>): nat
    decreases es
  {
    if es == [] then 0 else EntryWeight(es[0]) + EntriesWeight(es[1..])
  }

  function StackWeight(stack: seq<Frame>): nat {
    if stack == [] then 0 else 1 + EntriesWeight(stack[0].rest) + StackWeight(stack[1..])
  }

  /** The walk outranks the end of the walk, whose broadcast may wake `n` workers. */
  function ManagerWeight(n: nat, m: ManagerPc): nat {
    match m
    case ManagerAtBarrier => 0
    case DoneSet => 2 * n + 1
    case DoneLock => 2 * n + 2
    case Walk => 2 * n + 3
    case DirLock(_, es) => 2 * n + 6 + EntriesWeight(es)
    case DirCount(_, es) => 2 * n + 5 + EntriesWeight(es)
    case OpenDest(_, f) => 2 * n + 18 + 4 * |f.content|
    case Pushing(_, _, p) => 2 * n + 3 + (match p case Testing => 13 case Sleeping => 12 case _ => 14)
    case FileLock => 2 * n + 5
    case FileCount => 2 * n + 4
    case FifoLock => 2 * n + 5
    case FifoCount => 2 * n + 4
  }

  function WorkerWeight(w: WorkerPc): nat {
    match w
    case AtBarrier => 0
    case Asleep => 1
    case Test => 2
    case ToLock => 3
    case Woken => 3
    case Busy(_, _, p) =>
      match p
      case CloseDest => 4
      case CloseSource => 5
      case Writing(_) => 6
      case Reading => 7
      case BytesAdd(_) => 8
      case BytesLock(_) => 9
  }

  /** Bytes of one file not yet in its destination. */
  function Missing(o: Out): nat {
    if |o.data| <= |o.source.content| then |o.source.content| - |o.data| else 0
  }

  function Queued(r: Ring): nat {
    if 0 <= r.count then 8 * r.count else 0
  }

  function Measure(s: State): nat {
    ManagerWeight(|s.ws|, s.mgr) + StackWeight(s.stack) + SumOf(WorkerWeight, s.ws)
    + Queued(s.shared.ring) + 4 * SumOf(Missing, s.outs) + Barrier.Work(s.bar)
  }

  lemma MeasureEntry(c: Config, s: State, a: Action)
    requires Valid(s.shared.ring) && Guard(c, s, a)
    requires a.SkipEntry? || a.MakeDir? || a.MakeFifo? || a.OpenSource?
    ensures Measure(ManagerEffect(c, s, a)) < Measure(s)
  {
    var t := DropEntry(s).stack;
    assert t[1..] == s.stack[1..] && t[0].rest == s.stack[0].rest[1..];
    assert StackWeight(s.stack) == EntryWeight(Entry0(s)) + StackWeight(t);
    assert EntryWeight(Entry0(s)) > 0;
  }

  lemma MeasureManager(c: Config, s: State, a: Action)
    requires Valid(s.shared.ring) && Guard(c, s, a) && ByManager(a) && !a.WakeManager?
    requires !a.PushPair? && !a.SetDone? && !a.OpenDestination?
    requires !a.SkipEntry? && !a.MakeDir? && !a.MakeFifo? && !a.OpenSource?
    ensures Measure(ManagerEffect(c, s, a)) < Measure(s)
  {
    var s' := ManagerEffect(c, s, a);
    assert s'.ws == s.ws && s'.outs == s.outs && s'.bar == s.bar && s'.shared.ring == s.shared.ring;
    if a.CountDir? && s'.stack != s.stack {
      assert s'.stack[1..] == s.stack;
    } else if !a.CloseDir? {
      assert s'.stack == s.stack;
    }
  }

  lemma MeasurePush(c: Config, s: State, a: Action)
    requires Valid(s.shared.ring) && Guard(c, s, a) && a.PushPair?
    ensures Measure(ManagerEffect(c, s, a)) < Measure(s)
  {
    if 0 <= a.wake < |s.ws| { SumUpdate(WorkerWeight, s.ws, a.wake, Woken); }
  }

  lemma MeasureDone(c: Config, s: State, a: Action)
    requires Valid(s.shared.ring) && Guard(c, s, a) && a.SetDone?
    requires |s.bar.pcs| == |s.ws| + 1 && s.bar.pcs[|s.ws|].Outside?
    ensures Measure(ManagerEffect(c, s, a)) < Measure(s)
  {
    SumWithin(WorkerWeight, WakeAll(s.ws), s.ws, 2);
    Barrier.ArriveWork(s.bar, |s.ws|);
  }

  lemma MeasureOpen(c: Config, s: State, a: Action)
    requires Valid(s.shared.ring) && Guard(c, s, a) && a.OpenDestination?
    ensures Measure(ManagerEffect(c, s, a)) < Measure(s)
  {
    var o := Out(s.mgr.file, [], false, 0);
    SumAppend(Missing, s.outs, [o]);
    SumOne(Missing, o);
  }

  lemma MeasureOut(s: State, s': State, w: nat, k: nat)
    requires w < |s.ws| && k < |s.outs| && |s'.ws| == |s.ws| && |s'.outs| == |s.outs|
    requires s'.ws == s.ws[w := s'.ws[w]] && s'.outs == s.outs[k := s'.outs[k]]
    requires s'.mgr == s.mgr && s'.stack == s.stack && s'.bar == s.bar && s'.shared == s.shared
    requires WorkerWeight(s'.ws[w]) + 4 * Missing(s'.outs[k]) < WorkerWeight(s.ws[w]) + 4 * Missing(s.outs[k])
    ensures Measure(s') < Measure(s)
  {
    SumUpdate(WorkerWeight, s.ws, w, s'.ws[w]);
    SumUpdate(Missing, s.outs, k, s'.outs[k]);
  }

  lemma MeasureWrite(c: Config, s: State, a: Action)
    requires Valid(s.shared.ring) && Guard(c, s, a) && (a.ReadFails? || a.Write? || a.WriteFails?)
    requires WorkerFile(s, a.i)
    ensures Measure(WorkerEffect(c, s, a)) < Measure(s)
  {
    var s', k := WorkerEffect(c, s, a), SlotOfWorker(s, a.i);
    assert s'.outs == s.outs[k := s'.outs[k]];
    if !a.ReadFails? {
      var chunk, rest := s.ws[a.i].copy.chunk, s.fds[s.ws[a.i].src].rest;
      assert |s.outs[k].data + (chunk + rest)| == |s.outs[k].source.content|;
    }
    MeasureOut(s, s', a.i, k);
  }

  lemma MeasureFinish(c: Config, s: State, a: Action)
    requires Valid(s.shared.ring) && Guard(c, s, a) && a.Finish? && a.i < |s.bar.pcs| && s.bar.pcs[a.i].Outside?
    ensures Measure(WorkerEffect(c, s, a)) < Measure(s)
  {
    SumUpdate(WorkerWeight, s.ws, a.i, AtBarrier);
    Barrier.ArriveWork(s.bar, a.i);
  }

  lemma MeasurePop(c: Config, s: State, a: Action)
    requires Valid(s.shared.ring) && Guard(c, s, a) && a.PopPair?
    ensures Measure(WorkerEffect(c, s, a)) < Measure(s)
  {
    SumUpdate(WorkerWeight, s.ws, a.i, WorkerEffect(c, s, a).ws[a.i]);
  }

  lemma MeasureWorker(c: Config, s: State, a: Action)
    requires Valid(s.shared.ring) && Guard(c, s, a) && !ByManager(a) && !Spurious(a)
    requires !a.ReadFails? && !a.Write? && !a.WriteFails? && !a.Finish? && !a.PopPair?
    ensures Measure(WorkerEffect(c, s, a)) < Measure(s)
  {
    var s' := WorkerEffect(c, s, a);
    assert s'.mgr == s.mgr && s'.outs == s.outs && s'.stack == s.stack && s'.shared.ring == s.shared.ring;
    if a.AtBar? {
      assert s'.ws == s.ws;
      Barrier.StepWork(s.bar, a.t, a.b);
    } else {
      assert s'.bar == s.bar && s'.ws == s.ws[a.i := s'.ws[a.i]];
      SumUpdate(WorkerWeight, s.ws, a.i, s'.ws[a.i]);
    }
  }

  lemma ManagerTerminates(c: Config, s: State, a: Action)
    requires Valid(s.shared.ring) && Guard(c, s, a) && !Spurious(a) && ByManager(a)
    requires a.SetDone? ==> |s.bar.pcs| == |s.ws| + 1 && s.bar.pcs[|s.ws|].Outside?
    ensures Measure(ManagerEffect(c, s, a)) < Measure(s)
  {
    if a.SkipEntry? || a.MakeDir? || a.MakeFifo? || a.OpenSource? { MeasureEntry(c, s, a); }
    else if a.PushPair? { MeasurePush(c, s, a); }
    else if a.SetDone? { MeasureDone(c, s, a); }
    else if a.OpenDestination? { MeasureOpen(c, s, a); }
    else { MeasureManager(c, s, a); }
  }

  lemma WorkerTerminates(c: Config, s: State, a: Action)
    requires Valid(s.shared.ring) && WorkerFiles(s) && Guard(c, s, a) && !Spurious(a) && !ByManager(a)
    requires a.Finish? ==> a.i < |s.bar.pcs| && s.bar.pcs[a.i].Outside?
    ensures Measure(WorkerEffect(c, s, a)) < Measure(s)
  {
    if a.ReadFails? || a.Write? || a.WriteFails? { assert WorkerFile(s, a.i); MeasureWrite(c, s, a); }
    else if a.Finish? { MeasureFinish(c, s, a); }
    else if a.PopPair? { MeasurePop(c, s, a); }
    else { MeasureWorker(c, s, a); }
  }

  /** Every step of every thread, sleeping and being signalled included, lowers the measure. */
  lemma StepTerminates(c: Config, s: State, a: Action)
    requires Inv(c, s) && Guard(c, s, a) && !Spurious(a)
    ensures Measure(Effect(c, s, a)) < Measure(s)
  {
    if ByManager(a) { ManagerTerminates(c, s, a); } else { WorkerTerminates(c, s, a); }
  }

  lemma SpuriousCosts(c: Config, s: State, a: Action)
    requires Valid(s.shared.ring) && Guard(c, s, a) && Spurious(a)
    ensures Measure(Effect(c, s, a)) <= Measure(s) + 2
  {
    if a.WakeWorker? { SumUpdate(WorkerWeight, s.ws, a.i, Woken); }
    else if a.AtBar? { Barrier.StepWork(s.bar, a.t, a.b); }
  }

  function Wakeups(acts: seq<Action>): nat {
    if acts == [] then 0 else (if Spurious(acts[0]) then 1 else 0) + Wakeups(acts[1..])
  }

  lemma {:induction false} RunLength(c: Config, s: State, acts: seq<Action>, t: State)
    requires Inv(c, s) && Run(c, s, acts, t)
    ensures |acts| + Measure(t) <= Measure(s) + 3 * Wakeups(acts)
    decreases |acts|
  {
    if acts != [] {
      InvStep(c, s, acts[0]);
      if Spurious(acts[0]) { SpuriousCosts(c, s, acts[0]); } else { StepTerminates(c, s, acts[0]); }
      RunLength(c, Effect(c, s, acts[0]), acts[1..], t);
    }
  }

  /** A bound on the length of a run in terms of the tree and the number of workers alone. */
  function Bound(c: Config): nat {
    2 * c.workers + 4 + EntriesWeight(c.root) + 3 * c.workers + 6 * (c.workers + 1)
  }

  lemma StartWeight(c: Config)
    ensures Measure(Start(c)) <= Bound(c)
  {
    var s := Start(c);
    SumBound(WorkerWeight, s.ws, 3);
    SumBound(Barrier.Rank, s.bar.pcs, 6);
    if s.stack != [] {
      assert s.stack[1..] == [] && StackWeight(s.stack[1..]) == 0;
      assert s.stack[0].rest == c.root;
    }
    assert s.outs == [] && SumOf(Missing, s.outs) == 0;
  }

  /** No run takes more steps than its bound plus three for each spurious wakeup in it. */
  lemma EveryRunIsFinite(c: Config, acts: seq<Action>, s: State)
    requires Reaches(c, acts, s)
    ensures |acts| <= Bound(c) + 3 * Wakeups(acts)
  {
    Invariant(c, [], Start(c));
    RunLength(c, Start(c), acts, s);
    StartWeight(c);
  }

  /** So every run can be carried on, without spurious wakeups, to one in which all threads have
      exited, and then everything has been delivered. */
  lemma {:induction false} AlwaysCompletes(c: Config, s: State) returns (acts: seq<Action>, t: State)
    requires Inv(c, s)
    ensures Run(c, s, acts, t) && Barrier.AllExited(t.bar) && Delivered(c, t)
    ensures Wakeups(acts) == 0
    decreases Measure(s)
  {
    if Barrier.AllExited(s.bar) {
      acts, t := [], s;
      AllPastLoop(c, s);
    } else {
      var a, m := Forward(c, s);
      var rest;
      rest, t := AlwaysCompletes(c, m);
      acts := [a] + rest;
      assert acts[1..] == rest;
    }
  }

  lemma Forward(c: Config, s: State) returns (a: Action, m: State)
    requires Inv(c, s) && !Barrier.AllExited(s.bar)
    ensures Guard(c, s, a) && !Spurious(a) && Valid(s.shared.ring) && m == Effect(c, s, a)
    ensures Inv(c, m) && Measure(m) < Measure(s)
    ensures a.AtBar? ==> AllArrived(s)
  {
    a := Enabled(c, s);
    m := Effect(c, s, a);
    StepTerminates(c, s, a);
    InvStep(c, s, a);
  }
}
