/** Descriptors, destination files and counters of the copier: what every reachable state says
    about each file, whether it is still to be opened, in the manager's hands, in the ring, with a
    worker, or finished. */
module CopierData {
  import opened Tree
  import opened Ring
  import opened Copier

  // ---------- what one file looks like ----------

  /** Copied so far without a fault, with `left` still to be written. */
  predicate Intact(o: Out, left: seq<byte>) {
    !o.broken && o.lost == 0 && o.data + left == o.source.content
  }

  /** Finished: identical, or a prefix if a read or a write failed. */
  predicate Over(o: Out) {
    if o.broken then o.data <= o.source.content else Intact(o, [])
  }

  predicate CopyOk(o: Out, rest: seq<byte>, p: CopyPhase) {
    match p
    case Reading => Intact(o, rest)
    case Writing(chunk) => chunk != [] && Intact(o, chunk + rest)
    case BytesLock(_) => Intact(o, rest)
    case BytesAdd(_) => Intact(o, rest)
    case CloseSource => Over(o)
    case CloseDest => Over(o)
  }

  /** `src` and `dst` are the two ends of file `k`, none of it copied yet. */
  ghost predicate Fresh(s: State, src: int, dst: int, k: int) {
    && 0 <= k < |s.outs|
    && src in s.fds && s.fds[src] == Reader(k, s.outs[k].source.content)
    && dst in s.fds && s.fds[dst] == Writer(k)
    && s.outs[k] == Out(s.outs[k].source, [], false, 0)
  }

  // ---------- the invariant ----------

  ghost predicate HandOff(s: State) {
    && Valid(s.shared.ring)
    && s.taken + Contents(s.shared.ring) == s.pushed
    && |s.outs| == |s.pushed| + (if s.mgr.Pushing? then 1 else 0)
  }

  ghost predicate QueuedFiles(s: State) {
    forall j :: |s.taken| <= j < |s.pushed| ==> Fresh(s, s.pushed[j].0, s.pushed[j].1, j)
  }

  ghost predicate ManagerFile(s: State) {
    && (s.mgr.OpenDest? ==> s.mgr.src in s.fds && s.fds[s.mgr.src] == Reader(|s.outs|, s.mgr.file.content))
    && (s.mgr.Pushing? ==> Fresh(s, s.mgr.psrc, s.mgr.pdst, |s.outs| - 1))
  }

  ghost predicate WorkerFile(s: State, i: int)
    requires 0 <= i < |s.ws|
  {
    s.ws[i].Busy? ==>
      && s.ws[i].dst in s.fds && s.fds[s.ws[i].dst].Writer?
      && var k := s.fds[s.ws[i].dst].slot;
      && k < |s.taken| && k < |s.outs|
      && (s.ws[i].copy.CloseDest? || (s.ws[i].src in s.fds && s.fds[s.ws[i].src].Reader? && s.fds[s.ws[i].src].slot == k))
      && CopyOk(s.outs[k], if s.ws[i].copy.CloseDest? then [] else s.fds[s.ws[i].src].rest, s.ws[i].copy)
  }

  ghost predicate WorkerFiles(s: State) {
    forall i :: 0 <= i < |s.ws| ==> WorkerFile(s, i)
  }

  /** Worker `i` is the one copying file `k`. */
  ghost predicate Copies(s: State, i: int, k: nat) {
    0 <= i < |s.ws| && s.ws[i].Busy? && s.ws[i].dst in s.fds && s.fds[s.ws[i].dst] == Writer(k)
  }

  ghost predicate OneCopier(s: State) {
    forall i, j, k :: Copies(s, i, k) && Copies(s, j, k) ==> i == j
  }

  ghost predicate TakenFiles(s: State) {
    forall k :: 0 <= k < |s.taken| && k < |s.outs| ==> Over(s.outs[k]) || exists i :: Copies(s, i, k)
  }

  /** Worker `i` will still close descriptor `fd`. */
  predicate WorkerOwns(s: State, i: int, fd: int) {
    0 <= i < |s.ws| && s.ws[i].Busy? && (s.ws[i].dst == fd || (s.ws[i].src == fd && !s.ws[i].copy.CloseDest?))
  }

  predicate ManagerOwns(s: State, fd: int) {
    || (s.mgr.OpenDest? && s.mgr.src == fd)
    || (s.mgr.Pushing? && (s.mgr.psrc == fd || s.mgr.pdst == fd))
  }

  predicate QueueOwns(s: State, j: int, fd: int) {
    |s.taken| <= j < |s.pushed| && (s.pushed[j].0 == fd || s.pushed[j].1 == fd)
  }

  /** Every open descriptor is somebody's. */
  ghost predicate NoLeak(s: State) {
    forall fd :: fd in s.fds ==>
      if s.fds[fd].slot < |s.taken| then exists i :: WorkerOwns(s, i, fd)
      else QueueOwns(s, s.fds[fd].slot, fd) || ManagerOwns(s, fd)
  }

  ghost predicate Files(s: State) {
    && HandOff(s)
    && QueuedFiles(s)
    && ManagerFile(s)
    && WorkerFiles(s)
    && OneCopier(s)
    && TakenFiles(s)
    && NoLeak(s)
  }

  lemma FilesStart(c: Config)
    requires Runs(c)
    ensures Files(Start(c))
  {
    EmptyIsEmpty(c.size);
  }

  // ---------- steps that touch no descriptor ----------

  predicate SamePoint(p: CopyPhase, p': CopyPhase) {
    p' == p || (p.BytesLock? && p' == BytesAdd(p.n)) || (p.BytesAdd? && p' == Reading)
  }

  predicate SameJob(w: WorkerPc, w': WorkerPc) {
    && w.Busy? == w'.Busy?
    && (w.Busy? ==> w'.src == w.src && w'.dst == w.dst && SamePoint(w.copy, w'.copy))
  }

  predicate SameHand(m: ManagerPc, m': ManagerPc) {
    && !m.OpenDest? && !m'.OpenDest?
    && m.Pushing? == m'.Pushing?
    && (m.Pushing? ==> m'.psrc == m.psrc && m'.pdst == m.pdst)
  }

  lemma FilesFrame(s: State, s': State)
    requires Files(s) && SameFiles(s, s')
    ensures Files(s')
  {
    forall i, k ensures Copies(s', i, k) <==> Copies(s, i, k) {}
    forall i, fd ensures WorkerOwns(s', i, fd) <==> WorkerOwns(s, i, fd) {}
    forall i | 0 <= i < |s.ws| ensures WorkerFile(s', i) { assert WorkerFile(s, i); }
    forall fd ensures ManagerOwns(s', fd) <==> ManagerOwns(s, fd) {}
    forall k | 0 <= k < |s.taken| && k < |s.outs| ensures Over(s'.outs[k]) || exists i :: Copies(s', i, k) {
      if !Over(s.outs[k]) {
        var i :| Copies(s, i, k);
        assert Copies(s', i, k);
      }
    }
    forall fd | fd in s'.fds
      ensures if s'.fds[fd].slot < |s'.taken| then exists i :: WorkerOwns(s', i, fd)
              else QueueOwns(s', s'.fds[fd].slot, fd) || ManagerOwns(s', fd)
    {
      if s.fds[fd].slot < |s.taken| {
        var i :| WorkerOwns(s, i, fd);
        assert WorkerOwns(s', i, fd);
      }
    }
  }

  predicate Handles(a: Action) {
    || a.OpenSource? || a.OpenDestination? || a.OpenDestinationFails? || a.PushPair? || a.PopPair?
    || a.Read? || a.ReadEnds? || a.ReadFails? || a.Write? || a.WriteFails? || a.CloseSrc? || a.CloseDst?
  }

  ghost predicate SameFiles(s: State, s': State) {
    && s'.fds == s.fds && s'.outs == s.outs && s'.pushed == s.pushed && s'.taken == s.taken
    && s'.shared.ring == s.shared.ring && (s'.mgr == s.mgr || SameHand(s.mgr, s'.mgr))
    && |s'.ws| == |s.ws| && forall i :: 0 <= i < |s.ws| ==> SameJob(s.ws[i], s'.ws[i])
  }

  lemma ManagerHandlesNothing(c: Config, s: State, a: Action)
    requires Valid(s.shared.ring) && Guard(c, s, a) && !Handles(a) && ByManager(a)
    ensures SameFiles(s, ManagerEffect(c, s, a))
  {
  }

  lemma WorkerHandlesNothing(c: Config, s: State, a: Action)
    requires Valid(s.shared.ring) && Guard(c, s, a) && !Handles(a) && !ByManager(a)
    ensures SameFiles(s, WorkerEffect(c, s, a))
  {
  }

  // ---------- the manager's descriptors ----------

  lemma FilesOpenSource(c: Config, s: State, a: Action)
    requires Files(s) && Guard(c, s, a) && a.OpenSource?
    ensures Files(ManagerEffect(c, s, a))
  {
    var s' := ManagerEffect(c, s, a);
    forall i, k ensures Copies(s', i, k) <==> Copies(s, i, k) {
      if 0 <= i < |s.ws| { assert WorkerFile(s, i); }
    }
    forall i | 0 <= i < |s.ws| ensures WorkerFile(s', i) { assert WorkerFile(s, i); }
    forall i, fd ensures WorkerOwns(s', i, fd) <==> WorkerOwns(s, i, fd) {}
    forall j | |s.taken| <= j < |s.pushed| ensures Fresh(s', s.pushed[j].0, s.pushed[j].1, j) {
      assert Fresh(s, s.pushed[j].0, s.pushed[j].1, j);
    }
  }

  lemma FilesOpenDest(c: Config, s: State, a: Action)
    requires Files(s) && Guard(c, s, a) && (a.OpenDestination? || a.OpenDestinationFails?)
    ensures Files(ManagerEffect(c, s, a))
  {
    var s' := ManagerEffect(c, s, a);
    forall i, k ensures Copies(s', i, k) <==> Copies(s, i, k) {
      if 0 <= i < |s.ws| { assert WorkerFile(s, i); }
    }
    forall i | 0 <= i < |s.ws| ensures WorkerFile(s', i) { assert WorkerFile(s, i); }
    forall i, fd ensures WorkerOwns(s', i, fd) <==> WorkerOwns(s, i, fd) {}
    forall j | |s.taken| <= j < |s.pushed| ensures Fresh(s', s.pushed[j].0, s.pushed[j].1, j) {
      assert Fresh(s, s.pushed[j].0, s.pushed[j].1, j);
    }
  }

  lemma FilesPush(c: Config, s: State, a: Action)
    requires Files(s) && Guard(c, s, a) && a.PushPair?
    ensures Files(ManagerEffect(c, s, a))
  {
    var s' := ManagerEffect(c, s, a);
    PushRefines(s.shared.ring, s.mgr.psrc, s.mgr.pdst);
    forall i, k ensures Copies(s', i, k) <==> Copies(s, i, k) {}
    forall i | 0 <= i < |s.ws| ensures WorkerFile(s', i) { assert WorkerFile(s, i); }
    forall i, fd ensures WorkerOwns(s', i, fd) <==> WorkerOwns(s, i, fd) {}
    forall j | |s'.taken| <= j < |s'.pushed| ensures Fresh(s', s'.pushed[j].0, s'.pushed[j].1, j) {
      if j < |s.pushed| { assert Fresh(s, s.pushed[j].0, s.pushed[j].1, j); }
    }
  }

  lemma FilesPop(c: Config, s: State, a: Action)
    requires Files(s) && Guard(c, s, a) && a.PopPair?
    ensures Files(WorkerEffect(c, s, a))
  {
    var s' := WorkerEffect(c, s, a);
    var k0, p := |s.taken|, Front(s.shared.ring);
    PopRefines(s.shared.ring);
    assert s.pushed[k0] == p;
    assert Fresh(s, p.0, p.1, k0);
    forall i, k: nat ensures Copies(s, i, k) ==> k < k0 {
      if 0 <= i < |s.ws| { assert WorkerFile(s, i); }
    }
    FilesPopped(s, s', a.i, p);
  }

  /** What taking the oldest pair does to the bookkeeping, ring arithmetic aside. */
  lemma FilesPopped(s: State, s': State, w: int, p: Pair)
    requires Files(s) && Fresh(s, p.0, p.1, |s.taken|) && |s.taken| < |s.pushed| && s.pushed[|s.taken|] == p
    requires 0 <= w < |s.ws| && !s.ws[w].Busy?
    requires forall i, k: nat :: Copies(s, i, k) ==> k < |s.taken|
    requires s'.ws == s.ws[w := Busy(p.0, p.1, Reading)]
    requires s'.fds == s.fds && s'.outs == s.outs && s'.pushed == s.pushed && s'.taken == s.taken + [p]
    requires s'.mgr == SignalNotFull(s.mgr)
    requires HandOff(s')
    ensures Files(s')
  {
    var k0 := |s.taken|;
    forall i, k: nat ensures Copies(s', i, k) <==> (i != w && Copies(s, i, k)) || (i == w && k == k0) {}
    forall i | 0 <= i < |s.ws| ensures WorkerFile(s', i) { assert WorkerFile(s, i); }
    forall i, fd ensures WorkerOwns(s', i, fd) <==> (i != w && WorkerOwns(s, i, fd)) || (i == w && (fd == p.0 || fd == p.1)) {}
    forall k | 0 <= k < |s'.taken| && k < |s.outs| ensures Over(s'.outs[k]) || exists i :: Copies(s', i, k) {
      if k == k0 {
        assert Copies(s', w, k0);
      } else if !Over(s.outs[k]) {
        var i :| Copies(s, i, k);
        assert Copies(s', i, k);
      }
    }
    forall fd | fd in s'.fds
      ensures if s'.fds[fd].slot < |s'.taken| then exists i :: WorkerOwns(s', i, fd)
              else QueueOwns(s', s'.fds[fd].slot, fd) || ManagerOwns(s', fd)
    {
      if s.fds[fd].slot < k0 {
        var i :| WorkerOwns(s, i, fd);
        assert WorkerOwns(s', i, fd);
      } else if s.fds[fd].slot == k0 {
        assert WorkerOwns(s', w, p.0) && WorkerOwns(s', w, p.1);
      }
    }
  }

  // ---------- a worker copies ----------

  /** Worker `w`, copying file `k`, changes nothing but its own descriptors `touched` and the
      record of file `k`. */
  ghost predicate OwnFileOnly(s: State, s': State, w: int, k: nat, touched: set<int>) {
    && Copies(s, w, k) && k < |s.outs|
    && s'.mgr == s.mgr && s'.shared.ring == s.shared.ring && s'.pushed == s.pushed && s'.taken == s.taken
    && |s'.ws| == |s.ws| && s'.ws == s.ws[w := s'.ws[w]]
    && |s'.outs| == |s.outs| && s'.outs == s.outs[k := s'.outs[k]] && s'.outs[k].source == s.outs[k].source
    && (forall fd :: fd in touched ==> fd in s.fds && s.fds[fd].slot == k)
    && (forall fd :: fd !in touched ==> (fd in s'.fds <==> fd in s.fds))
    && (forall fd :: fd in s.fds && fd !in touched ==> s'.fds[fd] == s.fds[fd])
    && (forall fd :: fd in touched && fd in s'.fds ==> s'.fds[fd].slot == k)
  }

  lemma FilesCopy(s: State, s': State, w: int, k: nat, touched: set<int>)
    requires Files(s) && OwnFileOnly(s, s', w, k, touched)
    requires WorkerFile(s', w)
    requires if s'.ws[w].Busy? then Copies(s', w, k) else Over(s'.outs[k])
    requires forall fd :: fd in s'.fds && WorkerOwns(s, w, fd) ==> WorkerOwns(s', w, fd)
    ensures Files(s')
  {
    forall i | 0 <= i < |s.ws| && i != w && s.ws[i].Busy?
      ensures s.ws[i].dst !in touched && (s.ws[i].copy.CloseDest? || s.ws[i].src !in touched)
    {
      assert WorkerFile(s, i);
      if s.ws[i].dst in touched || (!s.ws[i].copy.CloseDest? && s.ws[i].src in touched) {
        assert Copies(s, i, k);
      }
    }
    forall i, k': nat ensures Copies(s', i, k') ==> Copies(s, i, k') {
      if 0 <= i < |s.ws| { assert WorkerFile(s, i); }
    }
    forall i | 0 <= i < |s.ws| ensures WorkerFile(s', i) {
      assert WorkerFile(s, i);
      if i != w && s.ws[i].Busy? {
        var k' := s.fds[s.ws[i].dst].slot;
        assert Copies(s, i, k');
      }
    }
    assert k < |s.taken| by { assert WorkerFile(s, w); }
    forall j | |s.taken| <= j < |s.pushed| ensures Fresh(s', s.pushed[j].0, s.pushed[j].1, j) {
      assert Fresh(s, s.pushed[j].0, s.pushed[j].1, j);
    }
    forall k' | 0 <= k' < |s.taken| && k' < |s.outs| ensures Over(s'.outs[k']) || exists i :: Copies(s', i, k') {
      if k' == k {
        assert Over(s'.outs[k]) || Copies(s', w, k);
      } else if !Over(s.outs[k']) {
        var i :| Copies(s, i, k');
        assert Copies(s', i, k');
      }
    }
    FilesCopyNoLeak(s, s', w, k, touched);
  }

  lemma FilesCopyNoLeak(s: State, s': State, w: int, k: nat, touched: set<int>)
    requires Files(s) && OwnFileOnly(s, s', w, k, touched) && k < |s.taken|
    requires forall fd :: fd in s'.fds && WorkerOwns(s, w, fd) ==> WorkerOwns(s', w, fd)
    ensures NoLeak(s')
  {
    forall fd | fd in s'.fds
      ensures if s'.fds[fd].slot < |s'.taken| then exists i :: WorkerOwns(s', i, fd)
              else QueueOwns(s', s'.fds[fd].slot, fd) || ManagerOwns(s', fd)
    {
      assert fd in s.fds && s'.fds[fd].slot == s.fds[fd].slot;
      if s.fds[fd].slot < |s.taken| {
        var i :| WorkerOwns(s, i, fd);
        assert WorkerOwns(s', i, fd);
      } else {
        assert QueueOwns(s, s.fds[fd].slot, fd) || ManagerOwns(s, fd);
      }
    }
  }

  lemma FilesRead(c: Config, s: State, a: Action)
    requires Files(s) && Guard(c, s, a) && a.Read?
    ensures Files(WorkerEffect(c, s, a))
  {
    var s', k := WorkerEffect(c, s, a), SlotOfWorker(s, a.i);
    assert WorkerFile(s, a.i);
    var rest := s.fds[s.ws[a.i].src].rest;
    assert rest == rest[..a.n] + rest[a.n..];
    assert s'.outs == s.outs[k := s'.outs[k]];
    FilesCopy(s, s', a.i, k, {s.ws[a.i].src});
  }

  lemma FilesReadStops(c: Config, s: State, a: Action)
    requires Files(s) && Guard(c, s, a) && (a.ReadEnds? || a.ReadFails?)
    ensures Files(WorkerEffect(c, s, a))
  {
    var s', k := WorkerEffect(c, s, a), SlotOfWorker(s, a.i);
    assert WorkerFile(s, a.i);
    var o, rest := s.outs[k], s.fds[s.ws[a.i].src].rest;
    assert o.data <= o.source.content;
    assert s'.outs == s.outs[k := s'.outs[k]];
    FilesCopy(s, s', a.i, k, {});
  }

  lemma FilesWrite(c: Config, s: State, a: Action)
    requires Files(s) && Guard(c, s, a) && a.Write?
    ensures Files(WorkerEffect(c, s, a))
  {
    var s', k := WorkerEffect(c, s, a), SlotOfWorker(s, a.i);
    assert WorkerFile(s, a.i);
    var o, chunk, rest := s.outs[k], s.ws[a.i].copy.chunk, s.fds[s.ws[a.i].src].rest;
    assert o.data + (chunk + rest) == (o.data + chunk) + rest;
    FilesCopy(s, s', a.i, k, {});
  }

  lemma FilesWriteFails(c: Config, s: State, a: Action)
    requires Files(s) && Guard(c, s, a) && a.WriteFails?
    ensures Files(WorkerEffect(c, s, a))
  {
    var s', k := WorkerEffect(c, s, a), SlotOfWorker(s, a.i);
    assert WorkerFile(s, a.i);
    var o, chunk, rest := s.outs[k], s.ws[a.i].copy.chunk, s.fds[s.ws[a.i].src].rest;
    assert o.data + (chunk + rest) == (o.data + chunk[..a.m]) + (chunk[a.m..] + rest);
    FilesCopy(s, s', a.i, k, {});
  }

  lemma FilesClose(c: Config, s: State, a: Action)
    requires Files(s) && Guard(c, s, a) && (a.CloseSrc? || a.CloseDst?)
    ensures Files(WorkerEffect(c, s, a))
  {
    assert WorkerFile(s, a.i);
    var s', k := WorkerEffect(c, s, a), s.fds[s.ws[a.i].dst].slot;
    assert s'.outs == s.outs[k := s'.outs[k]];
    FilesCopy(s, s', a.i, k, {if a.CloseSrc? then s.ws[a.i].src else s.ws[a.i].dst});
  }

  lemma FilesByManager(c: Config, s: State, a: Action)
    requires Files(s) && Guard(c, s, a) && ByManager(a)
    ensures Files(ManagerEffect(c, s, a))
  {
    if a.OpenSource? { FilesOpenSource(c, s, a); }
    else if a.OpenDestination? || a.OpenDestinationFails? { FilesOpenDest(c, s, a); }
    else if a.PushPair? { FilesPush(c, s, a); }
    else {
      ManagerHandlesNothing(c, s, a);
      FilesFrame(s, ManagerEffect(c, s, a));
    }
  }

  lemma FilesByWorker(c: Config, s: State, a: Action)
    requires Files(s) && Guard(c, s, a) && !ByManager(a)
    ensures Files(WorkerEffect(c, s, a))
  {
    if a.PopPair? { FilesPop(c, s, a); }
    else if a.Read? { FilesRead(c, s, a); }
    else if a.ReadEnds? || a.ReadFails? { FilesReadStops(c, s, a); }
    else if a.Write? { FilesWrite(c, s, a); }
    else if a.WriteFails? { FilesWriteFails(c, s, a); }
    else if a.CloseSrc? || a.CloseDst? { FilesClose(c, s, a); }
    else {
      WorkerHandlesNothing(c, s, a);
      FilesFrame(s, WorkerEffect(c, s, a));
    }
  }

  lemma FilesStep(c: Config, s: State, a: Action)
    requires Files(s) && Guard(c, s, a)
    ensures Files(Effect(c, s, a))
  {
    if ByManager(a) { FilesByManager(c, s, a); } else { FilesByWorker(c, s, a); }
  }
}
