/** What holds along the way in the copier: nothing is created before its directory, and no worker
    holds more than its buffer. */
module CopierWalk {
  import opened Tree
  import opened Ring
  import opened Copier
  import opened CopierMain

  /** The directory that `p` lies in has been created, or is the destination itself. */
  ghost predicate HasParent(s: State, p: Path) {
    p != [] && (|p| == 1 || p[..|p| - 1] in s.dirs)
  }

  ghost predicate IsDir(s: State, dir: Path) {
    dir == [] || dir in s.dirs
  }

  /** What the manager and its open directories are about to create. */
  ghost predicate AheadRooted(s: State) {
    && (forall k :: 0 <= k < |s.stack| ==> IsDir(s, s.stack[k].dir))
    && (s.mgr.DirLock? || s.mgr.DirCount? ==> s.mgr.dir in s.dirs)
    && (s.mgr.OpenDest? ==> HasParent(s, s.mgr.file.path))
  }

  ghost predicate MadeRooted(s: State) {
    && (forall k :: 0 <= k < |s.outs| ==> HasParent(s, s.outs[k].source.path))
    && (forall k :: 0 <= k < |s.dirs| ==> HasParent(s, s.dirs[k]))
    && (forall k :: 0 <= k < |s.fifos| ==> HasParent(s, s.fifos[k]))
  }

  ghost predicate Rooted(s: State) {
    AheadRooted(s) && MadeRooted(s)
  }

  lemma EntryHasParent(s: State)
    requires AtEntry(s) && AheadRooted(s)
    ensures HasParent(s, Path0(s))
  {
    assert IsDir(s, s.stack[0].dir);
    assert Path0(s)[..|Path0(s)| - 1] == s.stack[0].dir;
  }

  ghost predicate OneMoreAtMost(s: State, before: seq<Path>, after: seq<Path>) {
    after == before || (|after| == |before| + 1 && after[..|before|] == before && HasParent(s, after[|before|]))
  }

  /** Nothing is made, or one thing whose directory is there already. */
  lemma RootedFrame(s: State, s': State)
    requires Rooted(s) && AheadRooted(s')
    requires |s.outs| <= |s'.outs| && forall k :: 0 <= k < |s.outs| ==> s'.outs[k].source == s.outs[k].source
    requires |s.outs| < |s'.outs| ==> |s'.outs| == |s.outs| + 1 && HasParent(s, s'.outs[|s.outs|].source.path)
    requires OneMoreAtMost(s, s.dirs, s'.dirs) && OneMoreAtMost(s, s.fifos, s'.fifos)
    ensures Rooted(s')
  {
    forall p | p in s.dirs ensures p in s'.dirs {
      var k :| 0 <= k < |s.dirs| && s.dirs[k] == p;
      assert s'.dirs[k] == p;
    }
    forall p | HasParent(s, p) ensures HasParent(s', p) {}
    forall k | 0 <= k < |s'.dirs| ensures HasParent(s', s'.dirs[k]) {
      if k < |s.dirs| { assert s'.dirs[k] == s.dirs[k]; }
    }
    forall k | 0 <= k < |s'.fifos| ensures HasParent(s', s'.fifos[k]) {
      if k < |s.fifos| { assert s'.fifos[k] == s.fifos[k]; }
    }
  }

  lemma RootedManager(c: Config, s: State, a: Action)
    requires Rooted(s) && Valid(s.shared.ring) && Guard(c, s, a) && ByManager(a)
    ensures Rooted(ManagerEffect(c, s, a))
  {
    if AtEntry(s) { EntryHasParent(s); }
    RootedFrame(s, ManagerEffect(c, s, a));
  }

  lemma RootedWorker(c: Config, s: State, a: Action)
    requires Rooted(s) && Valid(s.shared.ring) && Guard(c, s, a) && !ByManager(a)
    ensures Rooted(WorkerEffect(c, s, a))
  {
    RootedFrame(s, WorkerEffect(c, s, a));
  }

  /** A worker's hands never hold more than one buffer. */
  ghost predicate ChunksFit(c: Config, s: State) {
    forall i :: 0 <= i < |s.ws| && s.ws[i].Busy? ==>
      && (s.ws[i].copy.Writing? ==> 1 <= |s.ws[i].copy.chunk| <= c.bufSize)
      && (s.ws[i].copy.BytesLock? || s.ws[i].copy.BytesAdd? ==> 1 <= s.ws[i].copy.n <= c.bufSize)
  }

  lemma ChunksFitStep(c: Config, s: State, a: Action)
    requires ChunksFit(c, s) && Valid(s.shared.ring) && Guard(c, s, a)
    ensures ChunksFit(c, Effect(c, s, a))
  {
    if ByManager(a) { ManagerLeavesCopies(c, s, a); } else { ChunksFitWorker(c, s, a); }
  }

  lemma ManagerLeavesCopies(c: Config, s: State, a: Action)
    requires Valid(s.shared.ring) && Guard(c, s, a) && ByManager(a)
    ensures var t := ManagerEffect(c, s, a);
            |t.ws| == |s.ws| && forall i :: 0 <= i < |t.ws| && t.ws[i].Busy? ==> t.ws[i] == s.ws[i]
  {
  }

  lemma ChunksFitWorker(c: Config, s: State, a: Action)
    requires ChunksFit(c, s) && Valid(s.shared.ring) && Guard(c, s, a) && !ByManager(a)
    ensures ChunksFit(c, WorkerEffect(c, s, a))
  {
  }

  lemma {:induction false} RunKeeps(c: Config, s: State, acts: seq<Action>, t: State)
    requires Rooted(s) && ChunksFit(c, s) && Run(c, s, acts, t)
    ensures Rooted(t) && ChunksFit(c, t)
    decreases |acts|
  {
    if acts != [] {
      var m := Effect(c, s, acts[0]);
      if ByManager(acts[0]) { RootedManager(c, s, acts[0]); } else { RootedWorker(c, s, acts[0]); }
      ChunksFitStep(c, s, acts[0]);
      RunKeeps(c, m, acts[1..], t);
    }
  }

  /** In every state of every run each file, directory and FIFO that has been created lies in a directory
      that has been created, so each is created after its directory. */
  lemma DirectoriesFirst(c: Config, acts: seq<Action>, s: State)
    requires Reaches(c, acts, s)
    ensures forall k :: 0 <= k < |s.outs| ==> HasParent(s, s.outs[k].source.path)
    ensures forall k :: 0 <= k < |s.dirs| ==> HasParent(s, s.dirs[k])
    ensures forall k :: 0 <= k < |s.fifos| ==> HasParent(s, s.fifos[k])
  {
    RunKeeps(c, Start(c), acts, s);
  }

  /** And no worker ever has more than a buffer of bytes to write or to count, nor none. */
  lemma BufferBound(c: Config, acts: seq<Action>, s: State, i: int)
    requires Reaches(c, acts, s) && 0 <= i < |s.ws| && s.ws[i].Busy?
    ensures s.ws[i].copy.Writing? ==> 1 <= |s.ws[i].copy.chunk| <= c.bufSize
    ensures s.ws[i].copy.BytesLock? || s.ws[i].copy.BytesAdd? ==> 1 <= s.ws[i].copy.n <= c.bufSize
  {
    RunKeeps(c, Start(c), acts, s);
  }
}
