/** What failing reads and writes can and cannot do in the copier. */
module CopierFaults {
  import opened Sums
  import opened Tree
  import opened Ring
  import opened Copier
  import opened CopierControl
  import opened CopierData
  import opened CopierCount
  import opened CopierMain
  import Barrier

  // ---------- damage ----------

  function Failing(a: Action): nat {
    if a.ReadFails? || a.WriteFails? then 1 else 0
  }

  /** The failing reads and writes of a run. */
  function Failures(acts: seq<Action>): nat {
    if acts == [] then 0 else Failing(acts[0]) + Failures(acts[1..])
  }

  function BrokenFiles(s: State): set<int> {
    set k | 0 <= k < |s.outs| && s.outs[k].broken
  }

  lemma OnlyFailuresBreak(c: Config, s: State, a: Action)
    requires Valid(s.shared.ring) && Guard(c, s, a)
    ensures |BrokenFiles(Effect(c, s, a))| <= |BrokenFiles(s)| + Failing(a)
  {
    var t := Effect(c, s, a);
    if a.ReadFails? || a.WriteFails? {
      FailureBreaksOne(c, s, a);
      assert BrokenFiles(t) <= BrokenFiles(s) + {SlotOfWorker(s, a.i)};
      SubsetSize(BrokenFiles(t), BrokenFiles(s) + {SlotOfWorker(s, a.i)});
    } else {
      NoFailureBreaksNone(c, s, a);
      SubsetSize(BrokenFiles(t), BrokenFiles(s));
    }
  }

  lemma FailureBreaksOne(c: Config, s: State, a: Action)
    requires Valid(s.shared.ring) && Guard(c, s, a) && (a.ReadFails? || a.WriteFails?)
    ensures forall k :: k in BrokenFiles(WorkerEffect(c, s, a)) ==> k in BrokenFiles(s) || k == SlotOfWorker(s, a.i)
  {
  }

  lemma NoFailureBreaksNone(c: Config, s: State, a: Action)
    requires Valid(s.shared.ring) && Guard(c, s, a) && !a.ReadFails? && !a.WriteFails?
    ensures BrokenFiles(Effect(c, s, a)) <= BrokenFiles(s)
  {
    var t := Effect(c, s, a);
    if a.Write? {
      var k := SlotOfWorker(s, a.i);
      assert t.outs == s.outs[k := t.outs[k]] && t.outs[k].broken == s.outs[k].broken;
    } else if a.OpenDestination? {
      assert t.outs[..|s.outs|] == s.outs && !t.outs[|s.outs|].broken;
    } else {
      assert t.outs == s.outs;
    }
  }

  lemma SubsetSize(a: set<int>, b: set<int>)
    requires a <= b
    ensures |a| <= |b|
  {
    assert b == a + (b - a);
  }

  lemma {:induction false} RunBreaks(c: Config, s: State, acts: seq<Action>, t: State)
    requires Run(c, s, acts, t)
    ensures |BrokenFiles(t)| <= |BrokenFiles(s)| + Failures(acts)
    decreases |acts|
  {
    if acts != [] {
      OnlyFailuresBreak(c, s, acts[0]);
      RunBreaks(c, Effect(c, s, acts[0]), acts[1..], t);
    }
  }

  /** When all threads have exited, every file in the destination is a prefix of its source, and no more
      files than there were failing reads and writes differ from theirs. */
  lemma DamageNeedsFailure(c: Config, acts: seq<Action>, s: State)
    requires Reaches(c, acts, s) && Barrier.AllExited(s.bar)
    ensures forall k :: 0 <= k < |s.outs| ==> s.outs[k].data <= s.outs[k].source.content
    ensures |set k | 0 <= k < |s.outs| && s.outs[k].data != s.outs[k].source.content| <= Failures(acts)
  {
    EndToEnd(c, acts, s);
    RunBreaks(c, Start(c), acts, s);
    forall k | 0 <= k < |s.outs|
      ensures s.outs[k].data <= s.outs[k].source.content
      ensures s.outs[k].data != s.outs[k].source.content ==> s.outs[k].broken
    {
      assert Over(s.outs[k]) && s.outs[k].data + [] == s.outs[k].data;
    }
    var damaged := set k | 0 <= k < |s.outs| && s.outs[k].data != s.outs[k].source.content;
    SubsetSize(damaged, BrokenFiles(s));
  }

  // ---------- bytes ----------

  /** The bytes of a write that went through in full. */
  function WrittenBy(c: Config, s: State, a: Action): nat
    requires Guard(c, s, a)
  {
    if a.Write? then |s.ws[a.i].copy.chunk| else 0
  }

  ghost function Written(c: Config, s: State, acts: seq<Action>, t: State): nat
    requires Run(c, s, acts, t)
    decreases |acts|
  {
    if acts == [] then 0 else WrittenBy(c, s, acts[0]) + Written(c, Effect(c, s, acts[0]), acts[1..], t)
  }

  function Total(s: State): nat {
    s.shared.bytesCopied + SumOf(InFlight, s.ws)
  }

  lemma TotalManager(c: Config, s: State, a: Action)
    requires Valid(s.shared.ring) && Guard(c, s, a) && ByManager(a)
    ensures Total(ManagerEffect(c, s, a)) == Total(s)
  {
    SumSame(InFlight, s.ws, InFlight, ManagerEffect(c, s, a).ws);
  }

  lemma TotalWorker(c: Config, s: State, a: Action)
    requires Valid(s.shared.ring) && Guard(c, s, a) && !ByManager(a) && !a.AtBar?
    ensures Total(WorkerEffect(c, s, a)) == Total(s) + WrittenBy(c, s, a)
  {
    var t := WorkerEffect(c, s, a);
    assert t.ws == s.ws[a.i := t.ws[a.i]];
    SumUpdate(InFlight, s.ws, a.i, t.ws[a.i]);
  }

  lemma {:induction false} RunTotal(c: Config, s: State, acts: seq<Action>, t: State)
    requires Run(c, s, acts, t)
    ensures Total(t) == Total(s) + Written(c, s, acts, t)
    decreases |acts|
  {
    if acts != [] {
      if ByManager(acts[0]) { TotalManager(c, s, acts[0]); }
      else if !acts[0].AtBar? { TotalWorker(c, s, acts[0]); }
      RunTotal(c, Effect(c, s, acts[0]), acts[1..], t);
    }
  }

  /** When all threads have exited, the total counts exactly the bytes of the writes that went through in
      full; what a failing write left behind is not in it. */
  lemma OnlyFullWritesCount(c: Config, acts: seq<Action>, s: State)
    requires Reaches(c, acts, s) && Barrier.AllExited(s.bar)
    ensures s.shared.bytesCopied == Written(c, Start(c), acts, s)
  {
    RunTotal(c, Start(c), acts, s);
    IdleSum(Start(c).ws);
    assert PastLoop(s) by {
      Invariant(c, acts, s);
      EntrantsPastLoop(c, s);
    }
    IdleSum(s.ws);
  }
}
