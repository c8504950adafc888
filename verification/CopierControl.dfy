/** Who holds the mutex, who sleeps, who has left: the part of the copier's invariant that rules
    out lost wakeups and deadlock. */
module CopierControl {
  import opened Ring
  import opened Copier
  import Barrier

  /** A worker that will look at the ring again without being woken first. */
  predicate Awake(w: WorkerPc) {
    !w.Asleep? && !w.AtBarrier?
  }

  predicate SomeAwake(ws: seq<WorkerPc>) {
    exists i :: 0 <= i < |ws| && Awake(ws[i])
  }

  ghost predicate Shape(c: Config, s: State) {
    && Runs(c)
    && |s.ws| == c.workers
    && |s.bar.pcs| == |s.ws| + 1
    && Barrier.Inv(s.bar)
    && Valid(s.shared.ring) && s.shared.ring.maxSize == c.size
  }

  ghost predicate MutexInv(s: State) {
    && -1 <= s.mutex <= |s.ws|
    && (forall i :: 0 <= i < |s.ws| ==> (WorkerHolds(s.ws[i]) <==> s.mutex == i))
    && (HoldsMutex(s.mgr) <==> s.mutex == |s.ws|)
  }

  ghost predicate BarrierLink(s: State)
    requires |s.bar.pcs| == |s.ws| + 1
  {
    && (forall i :: 0 <= i < |s.ws| ==> (s.ws[i].AtBarrier? <==> !s.bar.pcs[i].Outside?))
    && (s.mgr.ManagerAtBarrier? <==> !s.bar.pcs[|s.ws|].Outside?)
  }

  /** The heart of the absence of lost wakeups, although one insertion signals one waiter. */
  ghost predicate SleepInv(s: State) {
    && (s.shared.done <==> s.mgr.ManagerAtBarrier?)
    && (forall i :: 0 <= i < |s.ws| && s.ws[i].Asleep? ==> !s.shared.done)
    && (forall i :: 0 <= i < |s.ws| && s.ws[i].AtBarrier? ==> s.shared.done && s.shared.ring.count == 0)
    && (s.mgr.Pushing? && s.mgr.phase.Sleeping? ==> s.shared.ring.count == s.shared.ring.maxSize)
    && (s.shared.ring.count > 0 ==> SomeAwake(s.ws))
  }

  ghost predicate Control(c: Config, s: State) {
    && Shape(c, s)
    && MutexInv(s)
    && BarrierLink(s)
    && SleepInv(s)
  }

  lemma ControlStart(c: Config)
    requires Runs(c)
    ensures Control(c, Start(c))
  {
    EmptyIsEmpty(c.size);
    Barrier.StartInv(c.workers + 1);
  }

  lemma ControlPush(c: Config, s: State, a: Action)
    requires Control(c, s) && Guard(c, s, a) && a.PushPair?
    ensures Control(c, ManagerEffect(c, s, a))
  {
    var s' := ManagerEffect(c, s, a);
    PushRefines(s.shared.ring, s.mgr.psrc, s.mgr.pdst);
    assert Awake(s'.ws[if 0 <= a.wake < |s.ws| then a.wake else 0]);
  }

  lemma ControlDone(c: Config, s: State, a: Action)
    requires Control(c, s) && Guard(c, s, a) && a.SetDone?
    ensures Control(c, ManagerEffect(c, s, a))
  {
    var s' := ManagerEffect(c, s, a);
    Barrier.ArriveInv(s.bar, |s.ws|);
    if SomeAwake(s.ws) {
      var i :| 0 <= i < |s.ws| && Awake(s.ws[i]);
      assert Awake(s'.ws[i]);
    }
  }

  /** A step in which the manager stays in its walk and touches neither ring nor flag. */
  lemma ControlWalk(c: Config, s: State, s': State)
    requires Control(c, s)
    requires s'.ws == s.ws && s'.bar == s.bar && s'.shared.ring == s.shared.ring && s'.shared.done == s.shared.done
    requires !s.mgr.ManagerAtBarrier? && !s'.mgr.ManagerAtBarrier?
    requires if HoldsMutex(s'.mgr) then s'.mutex == |s.ws| && (s.mutex == FREE || s.mutex == |s.ws|)
             else s'.mutex == if s.mutex == |s.ws| then FREE else s.mutex
    requires s'.mgr.Pushing? && s'.mgr.phase.Sleeping? ==> s.shared.ring.count == s.shared.ring.maxSize
    ensures Control(c, s')
  {
  }

  lemma ControlManager(c: Config, s: State, a: Action)
    requires Control(c, s) && Guard(c, s, a) && ByManager(a) && !a.PushPair? && !a.SetDone?
    ensures Control(c, ManagerEffect(c, s, a))
  {
    ControlWalk(c, s, ManagerEffect(c, s, a));
  }

  /** A step in which one worker stays in its loop and touches neither ring nor flag. */
  lemma ControlAlone(c: Config, s: State, s': State, i: int)
    requires Control(c, s)
    requires s'.mgr == s.mgr && s'.bar == s.bar && s'.shared.ring == s.shared.ring && s'.shared.done == s.shared.done
    requires 0 <= i < |s.ws| && |s'.ws| == |s.ws| && s'.ws == s.ws[i := s'.ws[i]]
    requires Awake(s'.ws[i]) && !s.ws[i].AtBarrier?
    requires if WorkerHolds(s'.ws[i]) then s'.mutex == i && (s.mutex == FREE || s.mutex == i)
             else s'.mutex == if s.mutex == i then FREE else s.mutex
    ensures Control(c, s')
  {
  }

  /** The worker's own steps between two looks at the ring. */
  lemma ControlCopy(c: Config, s: State, a: Action)
    requires Control(c, s) && Guard(c, s, a) && !ByManager(a) && !a.AtBar?
    requires !a.WorkerSleeps? && !a.PopPair? && !a.Finish?
    ensures Control(c, WorkerEffect(c, s, a))
  {
    ControlAlone(c, s, WorkerEffect(c, s, a), a.i);
  }

  lemma ControlLook(c: Config, s: State, a: Action)
    requires Control(c, s) && Guard(c, s, a) && (a.WorkerSleeps? || a.Finish?)
    ensures Control(c, WorkerEffect(c, s, a))
  {
    if a.Finish? {
      Barrier.ArriveInv(s.bar, a.i);
    }
  }

  lemma ControlPop(c: Config, s: State, a: Action)
    requires Control(c, s) && Guard(c, s, a) && a.PopPair?
    ensures Control(c, WorkerEffect(c, s, a))
  {
    var s' := WorkerEffect(c, s, a);
    PopRefines(s.shared.ring);
    assert Awake(s'.ws[a.i]);
  }

  lemma ControlBarrier(c: Config, s: State, a: Action)
    requires Control(c, s) && Guard(c, s, a) && a.AtBar?
    ensures Control(c, WorkerEffect(c, s, a))
  {
    Barrier.StepInv(s.bar, a.t, a.b);
    if a.b.Come? && s.bar.count + 1 == |s.bar.pcs| {
      assert forall t :: 0 <= t < |s.bar.pcs| ==> (WorkerEffect(c, s, a).bar.pcs[t].Outside? <==> s.bar.pcs[t].Outside?);
    }
  }

  lemma ControlStep(c: Config, s: State, a: Action)
    requires Control(c, s) && Guard(c, s, a)
    ensures Control(c, Effect(c, s, a))
  {
    if a.PushPair? {
      ControlPush(c, s, a);
    } else if a.SetDone? {
      ControlDone(c, s, a);
    } else if ByManager(a) {
      ControlManager(c, s, a);
    } else if a.AtBar? {
      ControlBarrier(c, s, a);
    } else if a.PopPair? {
      ControlPop(c, s, a);
    } else if a.WorkerSleeps? || a.Finish? {
      ControlLook(c, s, a);
    } else {
      ControlCopy(c, s, a);
    }
  }
}
