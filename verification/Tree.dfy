/** The source tree that `process_directory` (Homework5/hw5.c) walks, and what the walk is to
    create for each entry when the outcome of every system call is given. */
module Tree {
  import opened Sequences

  newtype byte = x: int | 0 <= x < 256

  type Path = seq<string>

  /** `readdir` entries by `d_type`; `Other` stands for links, sockets and devices. */
  datatype Node = Regular(content: seq<byte>) | Dir(entries: seq<Entry>) | Fifo | Other
  datatype Entry = Entry(name: string, node: Node)

  /** The paths on which a system call fails. `noDir` and `noFifo` are failures other than
      EEXIST, which the program treats as success. */
  datatype Faults = Faults(noDir: set<Path>, noList: set<Path>, noRead: set<Path>, noCreate: set<Path>, noFifo: set<Path>)

  const NO_FAULTS := Faults({}, {}, {}, {}, {})

  datatype Source = Source(path: Path, content: seq<byte>)

  /** What a walk creates, in order of creation. */
  datatype Plan = Plan(files: seq<Source>, dirs: seq<Path>, fifos: seq<Path>)

  const NOTHING := Plan([], [], [])

  function Join(p: Plan, q: Plan): Plan {
    Plan(p.files + q.files, p.dirs + q.dirs, p.fifos + q.fifos)
  }

  predicate IsDot(name: string) {
    name == "." || name == ".."
  }

  /** The entries that the loop body of `process_directory` leaves with `continue`, or ignores,
      before it has created anything. */
  predicate Skipped(f: Faults, dir: Path, e: Entry) {
    || IsDot(e.name)
    || e.node.Other?
    || (e.node.Dir? && dir + [e.name] in f.noDir)
    || (e.node.Regular? && dir + [e.name] in f.noRead)
    || (e.node.Fifo? && dir + [e.name] in f.noFifo)
  }

  function PlanOf(f: Faults, dir: Path, e: Entry): Plan
    decreases e
  {
    var path := dir + [e.name];
    if Skipped(f, dir, e) then NOTHING
    else match e.node
      case Dir(es) => Join(Plan([], [path], []), if path in f.noList then NOTHING else PlanAll(f, path, es))
      case Regular(c) => if path in f.noCreate then NOTHING else Plan([Source(path, c)], [], [])
      case Fifo => Plan([], [], [path])
      case Other => NOTHING
  }

  function PlanAll(f: Faults, dir: Path, es: seq<Entry>): Plan
    decreases es
  {
    if es == [] then NOTHING else Join(PlanOf(f, dir, es[0]), PlanAll(f, dir, es[1..]))
  }

  lemma JoinAssoc(p: Plan, q: Plan, r: Plan)
    ensures Join(Join(p, q), r) == Join(p, Join(q, r))
  {
    assert (p.files + q.files) + r.files == p.files + (q.files + r.files);
    assert (p.dirs + q.dirs) + r.dirs == p.dirs + (q.dirs + r.dirs);
    assert (p.fifos + q.fifos) + r.fifos == p.fifos + (q.fifos + r.fifos);
  }

  lemma JoinNothing(p: Plan)
    ensures Join(p, NOTHING) == p && Join(NOTHING, p) == p
  {
  }

  // ---------- the plan against the tree itself ----------

  /** What is found at the end of a path. */
  datatype Kind = AFile(content: seq<byte>) | ADirectory | AFifo

  predicate Is(n: Node, k: Kind) {
    match k
    case AFile(c) => n == Regular(c)
    case ADirectory => n.Dir?
    case AFifo => n.Fifo?
  }

  /** `path` leads from directory `dir`, listed as `es`, to a node of kind `k`, through directories
      that could be made and listed. */
  ghost predicate Leads(f: Faults, dir: Path, es: seq<Entry>, path: Path, k: Kind)
    decreases |path|
  {
    && path != []
    && path[0] != "." && path[0] != ".."
    && exists i :: 0 <= i < |es| && Through(f, dir, es[i], path, k)
  }

  ghost predicate Through(f: Faults, dir: Path, e: Entry, path: Path, k: Kind)
    requires path != []
    decreases |path|, 0
  {
    && e.name == path[0]
    && if |path| == 1 then Is(e.node, k)
       else e.node.Dir? && dir + [e.name] !in f.noDir && dir + [e.name] !in f.noList
            && Leads(f, dir + [e.name], e.node.entries, path[1..], k)
  }

  predicate Creatable(f: Faults, p: Path, k: Kind) {
    match k
    case AFile(_) => p !in f.noRead && p !in f.noCreate
    case ADirectory => p !in f.noDir
    case AFifo => p !in f.noFifo
  }

  predicate Plans(plan: Plan, p: Path, k: Kind) {
    match k
    case AFile(c) => Source(p, c) in plan.files
    case ADirectory => p in plan.dirs
    case AFifo => p in plan.fifos
  }

  /** The tree alone, as it is on disk: some entry has the first name of the path, and the rest of the
      path is found below it. */
  ghost predicate InTree(es: seq<Entry>, path: Path, k: Kind)
    decreases |path|
  {
    path != [] && exists i :: 0 <= i < |es| && IsAt(es[i], path, k)
  }

  ghost predicate IsAt(e: Entry, path: Path, k: Kind)
    requires path != []
    decreases |path|, 0
  {
    && e.name == path[0]
    && if |path| == 1 then Is(e.node, k) else e.node.Dir? && InTree(e.node.entries, path[1..], k)
  }

  /** No name on the path is "." or "..". */
  predicate NoDots(path: Path) {
    forall i :: 0 <= i < |path| ==> path[i] != "." && path[i] != ".."
  }

  /** Without faults the walk is led to everything in the tree but what is below "." and "..". */
  lemma {:induction false} LeadsEverywhere(dir: Path, es: seq<Entry>, path: Path, k: Kind)
    ensures Leads(NO_FAULTS, dir, es, path, k) <==> InTree(es, path, k) && NoDots(path)
    decreases |path|
  {
    if path != [] {
      forall i | 0 <= i < |es|
        ensures NoDots(path) ==> (Through(NO_FAULTS, dir, es[i], path, k) <==> IsAt(es[i], path, k))
        ensures path[0] != "." && path[0] != ".." && Through(NO_FAULTS, dir, es[i], path, k) ==> NoDots(path)
      {
        if |path| > 1 && es[i].node.Dir? {
          LeadsEverywhere(dir + [es[i].name], es[i].node.entries, path[1..], k);
        }
      }
    }
  }

  /** Something is planned exactly if its path leads to it and it can be created. */
  lemma {:induction false} PlannedIffPresent(f: Faults, dir: Path, es: seq<Entry>, p: Path, k: Kind)
    ensures Plans(PlanAll(f, dir, es), dir + p, k)
            <==> Leads(f, dir, es, p, k) && Creatable(f, dir + p, k)
    decreases es
  {
    if es != [] {
      PlannedIffPresent(f, dir, es[1..], p, k);
      PlannedEntry(f, dir, es[0], p, k);
      LeadsFirst(f, dir, es, p, k);
    }
  }

  lemma LeadsFirst(f: Faults, dir: Path, es: seq<Entry>, p: Path, k: Kind)
    requires es != []
    ensures Leads(f, dir, es, p, k)
            <==> (p != [] && !IsDot(p[0]) && Through(f, dir, es[0], p, k)) || Leads(f, dir, es[1..], p, k)
  {
    if p != [] && !IsDot(p[0]) {
      if i :| 0 <= i < |es| && Through(f, dir, es[i], p, k) {
        if i > 0 { assert es[i] == es[1..][i - 1]; }
      }
      if j :| 0 <= j < |es| - 1 && Through(f, dir, es[1..][j], p, k) {
        assert es[1..][j] == es[j + 1];
      }
    }
  }

  lemma {:induction false} PlannedEntry(f: Faults, dir: Path, e: Entry, p: Path, k: Kind)
    ensures Plans(PlanOf(f, dir, e), dir + p, k)
            <==> p != [] && !IsDot(p[0]) && Through(f, dir, e, p, k) && Creatable(f, dir + p, k)
    decreases e
  {
    var path := dir + [e.name];
    PathsBelow(f, dir, e);
    if p == [] || p[0] != e.name {
      NotBelow(dir, e.name, p);
    } else {
      assert dir + p == path + p[1..];
      if |p| == 1 {
        assert dir + p == path;
      } else {
        assert |dir + p| != |path|;
      }
      if e.node.Dir? {
        PlannedIffPresent(f, path, e.node.entries, p[1..], k);
      }
    }
  }

  ghost predicate Under(prefix: Path, q: Path) {
    |prefix| <= |q| && q[..|prefix|] == prefix
  }

  ghost predicate AllUnder(prefix: Path, p: Plan) {
    && (forall i :: 0 <= i < |p.files| ==> Under(prefix, p.files[i].path))
    && (forall i :: 0 <= i < |p.dirs| ==> Under(prefix, p.dirs[i]))
    && (forall i :: 0 <= i < |p.fifos| ==> Under(prefix, p.fifos[i]))
  }

  lemma NotBelow(dir: Path, name: string, p: Path)
    requires p == [] || p[0] != name
    ensures !Under(dir + [name], dir + p)
  {
    if p != [] {
      assert (dir + p)[..|dir| + 1][|dir|] == p[0];
    }
  }

  /** Everything planned for an entry lies at or below the path of that entry. */
  lemma {:induction false} PathsBelow(f: Faults, dir: Path, e: Entry)
    ensures AllUnder(dir + [e.name], PlanOf(f, dir, e))
    decreases e
  {
    if e.node.Dir? {
      PathsBelowAll(f, dir + [e.name], e.node.entries);
    }
  }

  lemma {:induction false} PathsBelowAll(f: Faults, dir: Path, es: seq<Entry>)
    ensures AllUnder(dir, PlanAll(f, dir, es))
    decreases es
  {
    if es != [] {
      PathsBelow(f, dir, es[0]);
      PathsBelowAll(f, dir, es[1..]);
      var p := PlanOf(f, dir, es[0]);
      forall q: Path | Under(dir + [es[0].name], q) ensures Under(dir, q) {
        assert q[..|dir|] == q[..|dir| + 1][..|dir|] == dir;
      }
    }
  }

  // ---------- no path is planned twice ----------

  ghost predicate DistinctNames(es: seq<Entry>) {
    && (forall i, j :: 0 <= i < j < |es| ==> es[i].name != es[j].name)
    && (forall i :: 0 <= i < |es| && es[i].node.Dir? ==> DistinctNames(es[i].node.entries))
  }

  function Paths(fs: seq<Source>): (r: seq<Path>)
    ensures |r| == |fs| && forall i :: 0 <= i < |fs| ==> r[i] == fs[i].path
  {
    seq(|fs|, i requires 0 <= i < |fs| => fs[i].path)
  }

  /** Every path that a plan creates, as often as it creates it. */
  ghost function Created(p: Plan): multiset<Path> {
    multiset(Paths(p.files)) + multiset(p.dirs) + multiset(p.fifos)
  }

  /** No path is created twice, be it as the same kind or as two. */
  ghost predicate EachOnce(p: Plan) {
    forall q :: Created(p)[q] <= 1
  }

  lemma CreatedJoin(p: Plan, q: Plan)
    ensures Created(Join(p, q)) == Created(p) + Created(q)
  {
    assert Paths(p.files + q.files) == Paths(p.files) + Paths(q.files);
  }

  lemma CreatedIsUnder(prefix: Path, p: Plan)
    requires AllUnder(prefix, p)
    ensures forall q :: q in Created(p) ==> Under(prefix, q)
  {
  }

  ghost predicate BelowEntry(dir: Path, es: seq<Entry>, q: Path) {
    exists k :: 0 <= k < |es| && Under(dir + [es[k].name], q)
  }

  lemma {:induction false} CreatedIsBelow(f: Faults, dir: Path, es: seq<Entry>)
    ensures forall q :: q in Created(PlanAll(f, dir, es)) ==> BelowEntry(dir, es, q)
    decreases es
  {
    if es != [] {
      CreatedIsBelow(f, dir, es[1..]);
      PathsBelow(f, dir, es[0]);
      CreatedIsUnder(dir + [es[0].name], PlanOf(f, dir, es[0]));
      CreatedJoin(PlanOf(f, dir, es[0]), PlanAll(f, dir, es[1..]));
      forall q | q in Created(PlanAll(f, dir, es[1..])) ensures BelowEntry(dir, es, q) {
        assert BelowEntry(dir, es[1..], q);
        var k :| 0 <= k < |es| - 1 && Under(dir + [es[1..][k].name], q);
        assert es[k + 1] == es[1..][k];
      }
    }
  }

  /** When names are distinct in every directory, no destination path is created twice, as a file, a
      directory or a FIFO; so no O_TRUNC can hit a file that another worker has written. */
  lemma {:induction false} PlannedOnce(f: Faults, dir: Path, es: seq<Entry>)
    requires DistinctNames(es)
    ensures EachOnce(PlanAll(f, dir, es))
    decreases es
  {
    if es != [] {
      EntryOnce(f, dir, es[0]);
      PlannedOnce(f, dir, es[1..]);
      CreatedJoin(PlanOf(f, dir, es[0]), PlanAll(f, dir, es[1..]));
      PathsBelow(f, dir, es[0]);
      CreatedIsUnder(dir + [es[0].name], PlanOf(f, dir, es[0]));
      CreatedIsBelow(f, dir, es[1..]);
      forall q | q in Created(PlanOf(f, dir, es[0])) ensures q !in Created(PlanAll(f, dir, es[1..])) {
        if BelowEntry(dir, es[1..], q) {
          var k :| 0 <= k < |es| - 1 && Under(dir + [es[1..][k].name], q);
          assert es[1..][k] == es[k + 1];
          UnderOne(dir, es[0].name, es[k + 1].name, q);
        }
      }
    }
  }

  lemma UnderOne(dir: Path, a: string, b: string, q: Path)
    requires Under(dir + [a], q) && Under(dir + [b], q)
    ensures a == b
  {
    assert (dir + [a])[|dir|] == a && (dir + [b])[|dir|] == b;
  }

  lemma {:induction false} EntryOnce(f: Faults, dir: Path, e: Entry)
    requires e.node.Dir? ==> DistinctNames(e.node.entries)
    ensures EachOnce(PlanOf(f, dir, e))
    decreases e
  {
    var path := dir + [e.name];
    if Skipped(f, dir, e) {
      assert Created(NOTHING) == multiset{};
    } else {
      match e.node
      case Dir(es) =>
        PlannedOnce(f, path, es);
        DirectoryOnce(f, path, es);
      case Regular(c) =>
        CreatedOne(path, c);
        assert Created(NOTHING) == multiset{};
      case Fifo => CreatedOne(path, []);
    }
  }

  lemma CreatedOne(path: Path, content: seq<byte>)
    ensures Created(Plan([Source(path, content)], [], [])) == multiset{path}
    ensures Created(Plan([], [path], [])) == Created(Plan([], [], [path])) == multiset{path}
  {
    assert Paths([Source(path, content)]) == [path];
  }

  lemma DirectoryOnce(f: Faults, path: Path, es: seq<Entry>)
    requires EachOnce(PlanAll(f, path, es))
    ensures EachOnce(Join(Plan([], [path], []), PlanAll(f, path, es))) && EachOnce(Join(Plan([], [path], []), NOTHING))
  {
    CreatedOne(path, []);
    CreatedIsBelow(f, path, es);
    assert !BelowEntry(path, es, path);
    CreatedJoin(Plan([], [path], []), PlanAll(f, path, es));
    CreatedJoin(Plan([], [path], []), NOTHING);
  }

  lemma ListsOnce(p: Plan)
    requires EachOnce(p)
    ensures NoRepeats(Paths(p.files)) && NoRepeats(p.dirs) && NoRepeats(p.fifos)
  {
    forall q ensures multiset(Paths(p.files))[q] <= 1 && multiset(p.dirs)[q] <= 1 && multiset(p.fifos)[q] <= 1 {
      assert Created(p)[q] <= 1;
    }
    OnceNoRepeats(Paths(p.files));
    OnceNoRepeats(p.dirs);
    OnceNoRepeats(p.fifos);
  }

  lemma OnceNoRepeats(s: seq<Path>)
    requires forall q :: multiset(s)[q] <= 1
    ensures NoRepeats(s)
  {
    forall i, j | 0 <= i < j < |s| ensures s[i] != s[j] {
      var a, b := s[..j], s[j..];
      assert multiset(s) == multiset(a) + multiset(b) by { assert s == a + b; }
      assert a[i] in multiset(a) && b[0] in multiset(b);
      assert multiset(s)[s[i]] <= 1;
    }
  }
}
