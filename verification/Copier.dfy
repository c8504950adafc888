/** The directory copier (Homework5/hw5.c) as an interleaving state machine: one manager walking
    the source tree, any number of workers, one mutex, two condition variables and the final
    barrier. One action is one system call or one critical section entry, body or exit. */
module Copier {
  import opened Tree
  import opened Ring
  import Barrier

  /** The command line and the world: the source tree, the outcome of every open, mkdir, mkfifo
      and opendir, and the size of a worker's read buffer. */
  datatype Config = Config(size: nat, workers: nat, root: seq<Entry>, faults: Faults, bufSize: nat)

  /** `main` refuses sizes that are not positive. */
  ghost predicate Runs(c: Config) {
    1 <= c.size && 1 <= c.workers && 1 <= c.bufSize
  }

  /** An open descriptor refers to the `slot`-th file opened for copying: the reading end with
      the bytes it has not yet returned, or the writing end. */
  datatype Desc = Reader(slot: nat, rest: seq<byte>) | Writer(slot: nat)

  /** A destination file of this run. `broken` records that copying it met a failing read or
      write; `lost` are bytes that a short write left in it without their being counted. */
  datatype Out = Out(source: Source, data: seq<byte>, broken: bool, lost: nat)

  /** Phases of the critical section around the insertion: blocked on the mutex, holding it,
      asleep on `not_full`, woken and blocked on the mutex. */
  datatype PushPhase = ToPush | Testing | Sleeping | WokenUp

  datatype ManagerPc =
    | Walk
    | DirLock(dir: Path, entries: seq<Entry>)
    | DirCount(dir: Path, entries: seq<Entry>)
    | OpenDest(src: int, file: Source)
    | Pushing(psrc: int, pdst: int, phase: PushPhase)
    | FileLock
    | FileCount
    | FifoLock
    | FifoCount
    | DoneLock
    | DoneSet
    | ManagerAtBarrier

  datatype CopyPhase =
    | Reading
    | Writing(chunk: seq<byte>)
    | BytesLock(n: nat)
    | BytesAdd(n: nat)
    | CloseSource
    | CloseDest

  datatype WorkerPc =
    | ToLock
    | Test
    | Asleep
    | Woken
    | Busy(src: int, dst: int, copy: CopyPhase)
    | AtBarrier

  /** One open directory stream: its path and the entries `readdir` has still to return. */
  datatype Frame = Frame(dir: Path, rest: seq<Entry>)

  /** `mutex` is the owner of the buffer mutex: a worker's index, the number of workers for the
      manager, or -1. The barrier numbers threads the same way. `pushed` and `taken` are
      histories of the pairs put into and taken out of the ring. */
  datatype State = State(
    mgr: ManagerPc, ws: seq<WorkerPc>, mutex: int, shared: Shared, bar: Barrier.Barrier,
    stack: seq<Frame>, fds: map<int, Desc>, outs: seq<Out>, dirs: seq<Path>, fifos: seq<Path>,
    pushed: seq<Pair>, taken: seq<Pair>)

  const FREE := -1

  datatype Action =
    | FinishWalk
    | CloseDir
    | SkipEntry
    | MakeDir
    | MakeFifo
    | OpenSource(fd: int)
    | OpenDestination(fd: int)
    | OpenDestinationFails
    | ManagerLock
    | CountDir
    | CountFile
    | CountFifo
    | ManagerSleeps
    | PushPair(wake: int)
    | SetDone
    | WorkerLock(i: int)
    | WorkerSleeps(i: int)
    | PopPair(i: int)
    | Finish(i: int)
    | Read(i: int, n: int)
    | ReadEnds(i: int)
    | ReadFails(i: int)
    | Write(i: int)
    | WriteFails(i: int, m: int)
    | AddBytes(i: int)
    | CloseSrc(i: int)
    | CloseDst(i: int)
    | AtBar(t: int, b: Barrier.Action)
    | WakeManager
    | WakeWorker(i: int)

  /** A return from `pthread_cond_wait` that no signal caused. */
  predicate Spurious(a: Action) {
    a.WakeManager? || a.WakeWorker? || (a.AtBar? && a.b.Spurious?)
  }

  function Start(c: Config): State {
    State(Walk, seq(c.workers, _ => ToLock), FREE, Shared(Empty(c.size), 0, 0, 0, 0, false),
          Barrier.Start(c.workers + 1), if [] in c.faults.noList then [] else [Frame([], c.root)],
          map[], [], [], [], [], [])
  }

  /** Everything this run is to create. */
  function WholePlan(c: Config): Plan {
    if [] in c.faults.noList then NOTHING else PlanAll(c.faults, [], c.root)
  }

  predicate AtEntry(s: State) {
    s.mgr.Walk? && s.stack != [] && s.stack[0].rest != []
  }

  function Entry0(s: State): Entry
    requires AtEntry(s)
  {
    s.stack[0].rest[0]
  }

  function Path0(s: State): Path
    requires AtEntry(s)
  {
    s.stack[0].dir + [Entry0(s).name]
  }

  function DropEntry(s: State): State
    requires AtEntry(s)
  {
    s.(stack := [s.stack[0].(rest := s.stack[0].rest[1..])] + s.stack[1..])
  }

  predicate WantsMutex(m: ManagerPc) {
    m.DirLock? || m.FileLock? || m.FifoLock? || m.DoneLock? || (m.Pushing? && (m.phase.ToPush? || m.phase.WokenUp?))
  }

  predicate HoldsMutex(m: ManagerPc) {
    m.DirCount? || m.FileCount? || m.FifoCount? || m.DoneSet? || (m.Pushing? && m.phase.Testing?)
  }

  function Locked(m: ManagerPc): ManagerPc
    requires WantsMutex(m)
  {
    match m
    case DirLock(d, es) => DirCount(d, es)
    case FileLock => FileCount
    case FifoLock => FifoCount
    case DoneLock => DoneSet
    case Pushing(src, dst, _) => Pushing(src, dst, Testing)
  }

  predicate WorkerWants(w: WorkerPc) {
    w.ToLock? || w.Woken? || (w.Busy? && w.copy.BytesLock?)
  }

  predicate WorkerHolds(w: WorkerPc) {
    w.Test? || (w.Busy? && w.copy.BytesAdd?)
  }

  function WorkerLocked(w: WorkerPc): WorkerPc
    requires WorkerWants(w)
  {
    if w.Busy? then w.(copy := BytesAdd(w.copy.n)) else Test
  }

  function WakeAll(ws: seq<WorkerPc>): (r: seq<WorkerPc>)
    ensures |r| == |ws|
    ensures forall i :: 0 <= i < |ws| ==> r[i] == if ws[i].Asleep? then Woken else ws[i]
  {
    seq(|ws|, i requires 0 <= i < |ws| => if ws[i].Asleep? then Woken else ws[i])
  }

  /** A signal on `not_empty` wakes one sleeper if there is one. */
  predicate SignalChoice(ws: seq<WorkerPc>, wake: int) {
    if 0 <= wake < |ws| then ws[wake].Asleep? else forall i :: 0 <= i < |ws| ==> !ws[i].Asleep?
  }

  /** Worker `i` is copying and its two descriptors are open, which `Files` in CopierData shows to
      be so whenever it reads or writes. */
  predicate InCopy(s: State, i: int) {
    0 <= i < |s.ws| && s.ws[i].Busy? && s.ws[i].src in s.fds && s.ws[i].dst in s.fds
    && s.fds[s.ws[i].src].Reader? && s.fds[s.ws[i].dst].slot < |s.outs|
  }

  predicate Guard(c: Config, s: State, a: Action) {
    match a
    case FinishWalk => s.mgr.Walk? && s.stack == []
    case CloseDir => s.mgr.Walk? && s.stack != [] && s.stack[0].rest == []
    case SkipEntry => AtEntry(s) && Skipped(c.faults, s.stack[0].dir, Entry0(s))
    case MakeDir => AtEntry(s) && Entry0(s).node.Dir? && !Skipped(c.faults, s.stack[0].dir, Entry0(s))
    case MakeFifo => AtEntry(s) && Entry0(s).node.Fifo? && !Skipped(c.faults, s.stack[0].dir, Entry0(s))
    case OpenSource(fd) =>
      AtEntry(s) && Entry0(s).node.Regular? && !Skipped(c.faults, s.stack[0].dir, Entry0(s)) && fd !in s.fds
    case OpenDestination(fd) => s.mgr.OpenDest? && s.mgr.file.path !in c.faults.noCreate && fd !in s.fds
    case OpenDestinationFails => s.mgr.OpenDest? && s.mgr.file.path in c.faults.noCreate
    case ManagerLock => WantsMutex(s.mgr) && s.mutex == FREE
    case CountDir => s.mgr.DirCount?
    case CountFile => s.mgr.FileCount?
    case CountFifo => s.mgr.FifoCount?
    case ManagerSleeps => s.mgr.Pushing? && s.mgr.phase.Testing? && s.shared.ring.count == s.shared.ring.maxSize
    case PushPair(wake) =>
      && s.mgr.Pushing? && s.mgr.phase.Testing? && s.shared.ring.count != s.shared.ring.maxSize
      && SignalChoice(s.ws, wake)
    case SetDone => s.mgr.DoneSet?
    case WorkerLock(i) => 0 <= i < |s.ws| && WorkerWants(s.ws[i]) && s.mutex == FREE
    case WorkerSleeps(i) => 0 <= i < |s.ws| && s.ws[i].Test? && s.shared.ring.count == 0 && !s.shared.done
    case PopPair(i) => 0 <= i < |s.ws| && s.ws[i].Test? && s.shared.ring.count != 0
    case Finish(i) => 0 <= i < |s.ws| && s.ws[i].Test? && s.shared.ring.count == 0 && s.shared.done
    case Read(i, n) => InCopy(s, i) && s.ws[i].copy.Reading? && 1 <= n <= c.bufSize && n <= |s.fds[s.ws[i].src].rest|
    case ReadEnds(i) => InCopy(s, i) && s.ws[i].copy.Reading? && s.fds[s.ws[i].src].rest == []
    case ReadFails(i) => InCopy(s, i) && s.ws[i].copy.Reading?
    case Write(i) => InCopy(s, i) && s.ws[i].copy.Writing?
    case WriteFails(i, m) => InCopy(s, i) && s.ws[i].copy.Writing? && 0 <= m < |s.ws[i].copy.chunk|
    case AddBytes(i) => 0 <= i < |s.ws| && s.ws[i].Busy? && s.ws[i].copy.BytesAdd?
    case CloseSrc(i) => 0 <= i < |s.ws| && s.ws[i].Busy? && s.ws[i].copy.CloseSource?
    case CloseDst(i) => 0 <= i < |s.ws| && s.ws[i].Busy? && s.ws[i].copy.CloseDest?
    case AtBar(t, b) => Barrier.Guard(s.bar, t, b)
    case WakeManager => s.mgr.Pushing? && s.mgr.phase.Sleeping?
    case WakeWorker(i) => 0 <= i < |s.ws| && s.ws[i].Asleep?
  }

  function SetPhase(s: State, i: int, p: CopyPhase): State
    requires 0 <= i < |s.ws| && s.ws[i].Busy?
  {
    s.(ws := s.ws[i := s.ws[i].(copy := p)])
  }

  function SlotOfWorker(s: State, i: int): nat
    requires 0 <= i < |s.ws| && s.ws[i].Busy? && s.ws[i].dst in s.fds
  {
    s.fds[s.ws[i].dst].slot
  }

  function Unlock(s: State): State { s.(mutex := FREE) }

  function ManagerEffect(c: Config, s: State, a: Action): State
    requires Guard(c, s, a) && Valid(s.shared.ring)
  {
    match a
    case FinishWalk => s.(mgr := DoneLock)
    case CloseDir => s.(stack := s.stack[1..])
    case SkipEntry => DropEntry(s)
    case MakeDir =>
      DropEntry(s).(dirs := s.dirs + [Path0(s)], mgr := DirLock(Path0(s), Entry0(s).node.entries))
    case MakeFifo => DropEntry(s).(fifos := s.fifos + [Path0(s)], mgr := FifoLock)
    case OpenSource(fd) =>
      DropEntry(s).(fds := s.fds[fd := Reader(|s.outs|, Entry0(s).node.content)],
                    mgr := OpenDest(fd, Source(Path0(s), Entry0(s).node.content)))
    case OpenDestination(fd) =>
      s.(fds := s.fds[fd := Writer(|s.outs|)], outs := s.outs + [Out(s.mgr.file, [], false, 0)],
         mgr := Pushing(s.mgr.src, fd, ToPush))
    case OpenDestinationFails => s.(fds := s.fds - {s.mgr.src}, mgr := Walk)
    case ManagerLock => s.(mgr := Locked(s.mgr), mutex := |s.ws|)
    case CountDir =>
      Unlock(s).(shared := s.shared.(directories := s.shared.directories + 1), mgr := Walk,
                 stack := if s.mgr.dir in c.faults.noList then s.stack else [Frame(s.mgr.dir, s.mgr.entries)] + s.stack)
    case CountFile => Unlock(s).(shared := s.shared.(regularFiles := s.shared.regularFiles + 1), mgr := Walk)
    case CountFifo => Unlock(s).(shared := s.shared.(fifos := s.shared.fifos + 1), mgr := Walk)
    case ManagerSleeps => Unlock(s).(mgr := s.mgr.(phase := Sleeping))
    case PushPair(wake) =>
      Unlock(s).(shared := s.shared.(ring := Push(s.shared.ring, s.mgr.psrc, s.mgr.pdst)),
                 pushed := s.pushed + [(s.mgr.psrc, s.mgr.pdst)], mgr := FileLock,
                 ws := if 0 <= wake < |s.ws| then s.ws[wake := Woken] else s.ws)
    case SetDone =>
      Unlock(s).(shared := s.shared.(done := true), mgr := ManagerAtBarrier, ws := WakeAll(s.ws),
                 bar := Barrier.Arrive(s.bar, |s.ws|))
    case WakeManager => s.(mgr := s.mgr.(phase := WokenUp))
    case _ => s
  }

  /** The signal on `not_full`, which only the manager can be waiting for. */
  function SignalNotFull(m: ManagerPc): ManagerPc {
    if m.Pushing? && m.phase.Sleeping? then m.(phase := WokenUp) else m
  }

  function WorkerEffect(c: Config, s: State, a: Action): State
    requires Guard(c, s, a) && Valid(s.shared.ring)
  {
    match a
    case WorkerLock(i) => s.(ws := s.ws[i := WorkerLocked(s.ws[i])], mutex := i)
    case WorkerSleeps(i) => Unlock(s).(ws := s.ws[i := Asleep])
    case PopPair(i) =>
      var p := Front(s.shared.ring);
      Unlock(s).(shared := s.shared.(ring := Pop(s.shared.ring)), taken := s.taken + [p],
                 ws := s.ws[i := Busy(p.0, p.1, Reading)], mgr := SignalNotFull(s.mgr))
    case Finish(i) =>
      Unlock(s).(ws := s.ws[i := AtBarrier], bar := Barrier.Arrive(s.bar, i))
    case Read(i, n) =>
      var r := s.fds[s.ws[i].src];
      SetPhase(s, i, Writing(r.rest[..n])).(fds := s.fds[s.ws[i].src := Reader(r.slot, r.rest[n..])])
    case ReadEnds(i) => SetPhase(s, i, CloseSource)
    case ReadFails(i) =>
      var k := SlotOfWorker(s, i);
      SetPhase(s, i, CloseSource).(outs := s.outs[k := s.outs[k].(broken := true)])
    case Write(i) =>
      var k := SlotOfWorker(s, i);
      SetPhase(s, i, BytesLock(|s.ws[i].copy.chunk|))
        .(outs := s.outs[k := s.outs[k].(data := s.outs[k].data + s.ws[i].copy.chunk)])
    case WriteFails(i, m) =>
      var k := SlotOfWorker(s, i);
      SetPhase(s, i, CloseSource)
        .(outs := s.outs[k := s.outs[k].(data := s.outs[k].data + s.ws[i].copy.chunk[..m], broken := true, lost := m)])
    case AddBytes(i) =>
      Unlock(SetPhase(s, i, Reading)).(shared := s.shared.(bytesCopied := s.shared.bytesCopied + s.ws[i].copy.n))
    case CloseSrc(i) => SetPhase(s, i, CloseDest).(fds := s.fds - {s.ws[i].src})
    case CloseDst(i) => s.(ws := s.ws[i := ToLock], fds := s.fds - {s.ws[i].dst})
    case AtBar(t, b) => s.(bar := Barrier.Effect(s.bar, t, b))
    case WakeWorker(i) => s.(ws := s.ws[i := Woken])
    case _ => s
  }

  predicate ByManager(a: Action) {
    || a.FinishWalk? || a.CloseDir? || a.SkipEntry? || a.MakeDir? || a.MakeFifo? || a.OpenSource?
    || a.OpenDestination? || a.OpenDestinationFails? || a.ManagerLock? || a.CountDir? || a.CountFile?
    || a.CountFifo? || a.ManagerSleeps? || a.PushPair? || a.SetDone? || a.WakeManager?
  }

  function Effect(c: Config, s: State, a: Action): State
    requires Guard(c, s, a) && Valid(s.shared.ring)
  {
    if ByManager(a) then ManagerEffect(c, s, a) else WorkerEffect(c, s, a)
  }

  // ---------- runs ----------

  /** `acts`, taken in order from `s`, are all enabled and lead to `t`. That every ring met on the
      way is valid is no restriction: every reachable ring is (CopierMain.RunKeepsInv). */
  ghost predicate Run(c: Config, s: State, acts: seq<Action>, t: State)
    decreases |acts|
  {
    if acts == [] then t == s
    else Valid(s.shared.ring) && Guard(c, s, acts[0]) && Run(c, Effect(c, s, acts[0]), acts[1..], t)
  }

  /** `s` is reached by an execution of the program. */
  ghost predicate Reaches(c: Config, acts: seq<Action>, s: State) {
    Runs(c) && Run(c, Start(c), acts, s)
  }
}
