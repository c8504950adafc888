/** Showing the first lines or one page of the grade file (Homework1/hw1.h): loops over reads of
    any size, against line positions in the file as a whole. */
module Paging {

  const NEWLINE := '\n'
  const BUFFER_SIZE := 1024

  /** What one `read` delivers when it would deliver `want` bytes and `left` are left: at least one
      byte, at most a buffer, none only at the end. Every behaviour of `read` is some `want`. */
  function ReadSize(want: nat, left: nat): (n: nat)
    ensures n <= BUFFER_SIZE && n <= left
    ensures n == 0 <==> left == 0
  {
    var most := if left < BUFFER_SIZE then left else BUFFER_SIZE;
    if most < want then most else if want == 0 && left > 0 then 1 else want
  }

  /** The buffer holds `n` bytes of `s` from position `at`. */
  ghost predicate Holds(buffer: array<char>, n: nat, s: string, at: nat)
    reads buffer
  {
    n <= buffer.Length && at + n <= |s| && forall k :: 0 <= k < n ==> buffer[k] == s[at + k]
  }

  /** An open file: its bytes, what each read of it would deliver, the file offset, and the number
      of reads so far. */
  class File {
    const data: string
    const cut: nat -> nat
    var pos: nat
    var turn: nat

    constructor (data: string, cut: nat -> nat)
      ensures this.data == data && this.cut == cut && pos == 0 && turn == 0
    {
      this.data, this.cut := data, cut;
      pos, turn := 0, 0;
    }

    /** `read`. */
    method Read(buffer: array<char>) returns (n: nat)
      requires pos <= |data| && buffer.Length == BUFFER_SIZE
      modifies this, buffer
      ensures n == ReadSize(cut(old(turn)), |data| - old(pos)) && turn == old(turn) + 1
      ensures pos == old(pos) + n && Holds(buffer, n, data, old(pos))
    {
      n := ReadSize(cut(turn), |data| - pos);
      for i := 0 to n
        invariant pos == old(pos) && turn == old(turn)
        invariant forall k :: 0 <= k < i ==> buffer[k] == data[pos + k]
      {
        buffer[i] := data[pos + i];
      }
      pos, turn := pos + n, turn + 1;
    }
  }

  // ---------- lines ----------

  function Lines(s: string): nat {
    if s == [] then 0 else (if s[0] == NEWLINE then 1 else 0) + Lines(s[1..])
  }

  /** The number of newline characters. */
  lemma {:induction false} LinesCounts(s: string)
    ensures Lines(s) == multiset(s)['\n']
  {
    if s != [] {
      LinesCounts(s[1..]);
      assert s == [s[0]] + s[1..];
    }
  }

  /** The position just after the `n`-th newline, or the end. */
  function After(s: string, n: int): (p: nat)
    ensures p <= |s|
  {
    if n <= 0 || s == [] then 0
    else 1 + After(s[1..], if s[0] == NEWLINE then n - 1 else n)
  }

  /** The position of the `n`-th newline, or the end. */
  function Before(s: string, n: int): (p: nat)
    ensures p <= |s|
  {
    if n <= 0 || s == [] then 0
    else if s[0] == NEWLINE && n == 1 then 0
    else 1 + Before(s[1..], if s[0] == NEWLINE then n - 1 else n)
  }

  lemma {:induction false} LinesAppend(s: string, t: string)
    ensures Lines(s + t) == Lines(s) + Lines(t)
  {
    if s == [] {
      assert s + t == t;
    } else {
      assert (s + t)[1..] == s[1..] + t;
      LinesAppend(s[1..], t);
    }
  }

  lemma LinesNext(s: string, i: nat)
    requires i < |s|
    ensures Lines(s[..i + 1]) == Lines(s[..i]) + (if s[i] == NEWLINE then 1 else 0)
  {
    assert s[..i + 1] == s[..i] + [s[i]];
    LinesAppend(s[..i], [s[i]]);
    assert [s[i]][1..] == [];
  }

  /** `After` is the shortest prefix with `n` newlines, or everything if there are fewer. */
  lemma {:induction false} AfterMeaning(s: string, n: nat)
    ensures Lines(s[..After(s, n)]) == if n <= Lines(s) then n else Lines(s)
    ensures Lines(s) < n ==> After(s, n) == |s|
    ensures forall k :: 0 <= k < After(s, n) ==> Lines(s[..k]) < n
  {
    if n > 0 && s != [] {
      var m := if s[0] == NEWLINE then n - 1 else n;
      AfterMeaning(s[1..], m);
      forall k | 0 <= k <= |s| ensures k > 0 ==> Lines(s[..k]) == (if s[0] == NEWLINE then 1 else 0) + Lines(s[1..][..k - 1]) {
        if k > 0 { assert s[..k][1..] == s[1..][..k - 1]; }
      }
    } else if s == [] {
      assert s[..0] == [];
    }
  }

  /** The other direction: any position with the right count is it. */
  lemma AfterIs(s: string, n: nat, p: nat)
    requires p <= |s| && Lines(s[..p]) == n && (p > 0 ==> Lines(s[..p - 1]) < n)
    ensures After(s, n) == p
  {
    AfterMeaning(s, n);
    var q := After(s, n);
    LinesMonotone(s, p, |s|);
    assert s[..|s|] == s;
    if q < p { LinesMonotone(s, q, p - 1); }
  }

  lemma {:induction false} LinesMonotone(s: string, i: nat, j: nat)
    requires i <= j <= |s|
    ensures Lines(s[..i]) <= Lines(s[..j])
    decreases j - i
  {
    if i < j {
      LinesNext(s, j - 1);
      LinesMonotone(s, i, j - 1);
    }
  }

  /** `Before` and `After` differ by the newline itself. */
  lemma {:induction false} BeforeAfter(s: string, n: nat)
    requires 1 <= n
    ensures After(s, n) == Before(s, n) + (if n <= Lines(s) then 1 else 0)
    ensures n <= Lines(s) ==> s[Before(s, n)] == NEWLINE
  {
    if s != [] {
      var m := if s[0] == NEWLINE then n - 1 else n;
      if m > 0 { BeforeAfter(s[1..], m); }
    }
  }

  // ---------- the first five lines ----------

  const FIRST := 5

  lemma Longer(s: string, at: nat, next: string)
    requires at + |next| <= |s| && forall k :: 0 <= k < |next| ==> next[k] == s[at + k]
    ensures s[..at] + next == s[..at + |next|]
  {
  }

  /** `displayFirst5`: however the file is cut into reads, the shortest prefix with five newlines is
      written, or the whole file if it has fewer. */
  method DisplayFirst5(file: File) returns (out: string)
    requires file.pos == 0
    modifies file
    ensures out == file.data[..After(file.data, 5)]
  {
    out := "";
    var buffer := new char[BUFFER_SIZE];
    var linesRead := 0;
    ghost var d := file.data;
    while linesRead < FIRST
      invariant fresh(buffer) && buffer.Length == BUFFER_SIZE
      invariant linesRead <= FIRST && |out| <= |d| && out == d[..|out|] && linesRead == Lines(out)
      invariant linesRead < FIRST ==> file.pos == |out|
      invariant linesRead == FIRST ==> |out| > 0 && Lines(d[..|out| - 1]) < FIRST
      decreases |d| - |out|, FIRST - linesRead
    {
      var start := file.pos;
      var bytesRead := file.Read(buffer);
      if bytesRead <= 0 {
        assert d[..|d|] == d;
        AfterMeaning(d, FIRST);
        return;
      }
      linesRead, bytesRead := CountUpTo(buffer, bytesRead, linesRead, FIRST, d, start);
      Longer(d, start, buffer[..bytesRead]);
      out := out + buffer[..bytesRead];
    }
    AfterIs(d, FIRST, |out|);
  }

  /** The counting loop of `displayFirst5`: stops behind the newline that completes the count. */
  method CountUpTo(buffer: array<char>, bytesRead: nat, before: nat, limit: nat, ghost d: string, ghost start: nat)
      returns (linesRead: nat, kept: nat)
    requires 0 < bytesRead && Holds(buffer, bytesRead, d, start)
    requires before == Lines(d[..start]) < limit
    ensures 0 < kept <= bytesRead && linesRead == Lines(d[..start + kept]) <= limit
    ensures linesRead < limit ==> kept == bytesRead
    ensures linesRead == limit ==> Lines(d[..start + kept - 1]) < limit
  {
    linesRead, kept := before, bytesRead;
    for i := 0 to bytesRead
      invariant kept == bytesRead && linesRead == Lines(d[..start + i]) < limit
    {
      LinesNext(d, start + i);
      if buffer[i] == NEWLINE {
        linesRead := linesRead + 1;
        if linesRead >= limit {
          kept := i + 1;
          break;
        }
      }
    }
  }

  // ---------- one page ----------

  const END_OF_FILE := "End of file reached.\n"

  /** What is shown from `start` on when `n` lines are wanted. */
  function Shown(s: string, start: nat, n: int): string
    requires start <= |s|
  {
    s[start..start + Before(s[start..], n)]
  }

  /** The line count at which a page starts, and how many lines it has. */
  function Target(entries: int, page: int): int { (page - 1) * entries }

  function Wanted(entries: int, page: int): int {
    page * entries - (if Target(entries, page) > 0 then Target(entries, page) else 0)
  }

  /** A page: the bytes after newline (page - 1) * entries and before newline page * entries. */
  function Page(s: string, entries: int, page: int): string {
    var target := Target(entries, page);
    if target > Lines(s) then END_OF_FILE
    else Shown(s, After(s, target), Wanted(entries, page))
  }

  /** The start of the read that delivers the byte before position `p`, when the `k`-th read starts
      at `from`. */
  function StartOfRead(cut: nat -> nat, k: nat, from: nat, length: nat, p: nat): (start: nat)
    requires from < p <= length
    ensures from <= start < p
    decreases p - from
  {
    var n := ReadSize(cut(k), length - from);
    if p <= from + n then from else StartOfRead(cut, k + 1, from + n, length, p)
  }

  /** Where the program seeks to: it counts the page's position from the start of the read in which
      it has found it. */
  function Offset(s: string, cut: nat -> nat, target: int): nat
    requires target <= Lines(s)
  {
    if target <= 0 then 0
    else After(s, target) - StartOfRead(cut, 0, 0, |s|, After(s, target))
  }

  lemma NotYet(s: string, n: int, p: nat)
    requires p <= |s| && Lines(s[..p]) < n <= Lines(s)
    ensures p < After(s, n)
  {
    AfterMeaning(s, n);
    if After(s, n) <= p { LinesMonotone(s, After(s, n), p); }
  }

  /** The first loop of `displayPage`. */
  method FindPage(file: File, target: int) returns (found: bool, linesRead: nat, offset: nat)
    requires file.pos == 0 && file.turn == 0
    modifies file
    ensures found <==> target <= Lines(file.data)
    ensures found ==> linesRead == (if target > 0 then target else 0) && offset == Offset(file.data, file.cut, target)
  {
    ghost var d, cut, p := file.data, file.cut, After(file.data, target);
    found, linesRead, offset := true, 0, 0;
    var buffer := new char[BUFFER_SIZE];
    while linesRead < target
      invariant fresh(buffer) && buffer.Length == BUFFER_SIZE
      invariant found && linesRead <= (if target > 0 then target else 0) && file.pos <= |d|
      invariant linesRead < target ==> linesRead == Lines(d[..file.pos]) && offset == 0
      invariant linesRead < target <= Lines(d) ==>
                  file.pos < p && StartOfRead(cut, 0, 0, |d|, p) == StartOfRead(cut, file.turn, file.pos, |d|, p)
      invariant linesRead >= target ==> target <= Lines(d) && offset == Offset(d, cut, target)
      decreases |d| - file.pos, target - linesRead
    {
      ghost var start := file.pos;
      var bytesRead := file.Read(buffer);
      if bytesRead == 0 {
        assert d[..|d|] == d;
        found := false;
        return;
      }
      var within;
      linesRead, within := FindInRead(buffer, bytesRead, linesRead, target, d, start);
      offset := offset + within;
    }
  }

  /** The counting loop of the first loop of `displayPage`. */
  method FindInRead(buffer: array<char>, bytesRead: nat, before: nat, target: int, ghost d: string, ghost start: nat)
      returns (linesRead: nat, within: nat)
    requires 0 < bytesRead && Holds(buffer, bytesRead, d, start)
    requires before == Lines(d[..start]) < target
    ensures linesRead <= target && within <= bytesRead
    ensures linesRead < target ==> within == 0 && linesRead == Lines(d[..start + bytesRead])
    ensures linesRead < target <= Lines(d) ==> start + bytesRead < After(d, target)
    ensures linesRead == target ==> 0 < within && start + within == After(d, target) && target <= Lines(d)
  {
    linesRead, within := before, 0;
    for i := 0 to bytesRead
      invariant linesRead == Lines(d[..start + i]) < target && within == 0
    {
      LinesNext(d, start + i);
      if buffer[i] == NEWLINE {
        linesRead := linesRead + 1;
      }
      if linesRead >= target {
        within := i + 1;
        Found(d, target, start + within);
        return;
      }
    }
    if target <= Lines(d) { NotYet(d, target, start + bytesRead); }
  }

  lemma Found(s: string, n: nat, p: nat)
    requires 0 < p <= |s| && Lines(s[..p - 1]) < n == Lines(s[..p])
    ensures p == After(s, n) && n <= Lines(s)
  {
    AfterIs(s, n, p);
    LinesMonotone(s, p, |s|);
    assert s[..|s|] == s;
  }

  /** The second loop of `displayPage`, from the offset it has seeked to. */
  method ShowLines(file: File, before: nat, limit: int) returns (out: string)
    requires file.pos <= |file.data|
    modifies file
    ensures out == Shown(file.data, old(file.pos), limit - before)
  {
    out := "";
    var buffer := new char[BUFFER_SIZE];
    var linesRead: nat := before;
    ghost var d, origin := file.data[file.pos..], file.pos;
    var bytesRead: nat := ReadOn(file, buffer, origin, d, 0);
    while bytesRead > 0
      invariant fresh(buffer) && buffer.Length == BUFFER_SIZE
      invariant Holds(buffer, bytesRead, d, |out|) && file.pos == origin + |out| + bytesRead
      invariant bytesRead == 0 ==> |out| == |d|
      invariant Prefix(out, d) && Before(d, limit - before) == |out| + Before(d[|out|..], limit - linesRead)
      decreases |d| - |out|
    {
      linesRead, out := ShowRead(buffer, bytesRead, linesRead, limit, d, out);
      if linesRead >= limit {
        return;
      }
      bytesRead := ReadOn(file, buffer, origin, d, |out|);
    }
  }

  ghost predicate Prefix(p: string, s: string) {
    |p| <= |s| && forall k :: 0 <= k < |p| ==> p[k] == s[k]
  }

  /** A read seen from the offset `origin` at which showing started. */
  method ReadOn(file: File, buffer: array<char>, ghost origin: nat, ghost d: string, ghost start: nat) returns (n: nat)
    requires origin <= |file.data| && d == file.data[origin..] && start <= |d| && file.pos == origin + start
    requires buffer.Length == BUFFER_SIZE
    modifies file, buffer
    ensures Holds(buffer, n, d, start) && file.pos == origin + start + n
    ensures n == 0 <==> start == |d|
  {
    n := file.Read(buffer);
  }

  /** The writing loop of the second loop of `displayPage`. */
  method ShowRead(buffer: array<char>, bytesRead: nat, before: nat, limit: int, ghost d: string, sofar: string)
      returns (linesRead: nat, out: string)
    requires 0 < bytesRead && Holds(buffer, bytesRead, d, |sofar|) && Prefix(sofar, d)
    ensures |sofar| <= |out| <= |sofar| + bytesRead && Prefix(out, d)
    ensures if linesRead >= limit then |sofar| + Before(d[|sofar|..], limit - before) == |out|
            else |out| == |sofar| + bytesRead
                 && |sofar| + Before(d[|sofar|..], limit - before) == |out| + Before(d[|out|..], limit - linesRead)
  {
    linesRead, out := before, sofar;
    for i := 0 to bytesRead
      invariant |out| == |sofar| + i && Prefix(out, d)
      invariant i > 0 ==> linesRead < limit
      invariant |sofar| + Before(d[|sofar|..], limit - before) == |out| + Before(d[|out|..], limit - linesRead)
    {
      BeforeNext(d, |out|, limit - linesRead);
      if buffer[i] == NEWLINE {
        linesRead := linesRead + 1;
      }
      if linesRead >= limit {
        return;
      }
      out := out + [buffer[i]];
    }
  }

  lemma BeforeNext(s: string, i: nat, n: int)
    requires i < |s|
    ensures var m := if s[i] == NEWLINE then n - 1 else n;
            Before(s[i..], n) == if m <= 0 then 0 else 1 + Before(s[i + 1..], m)
  {
    assert s[i..][1..] == s[i + 1..];
  }

  /** What `displayPage` shows. */
  function Displayed(s: string, cut: nat -> nat, entries: int, page: int): string {
    var target := Target(entries, page);
    if target > Lines(s) then END_OF_FILE
    else Shown(s, Offset(s, cut, target), Wanted(entries, page))
  }

  /** `displayPage`, for every file, every cut into reads and every pair of arguments. */
  method DisplayPage(file: File, entries: int, page: int) returns (out: string)
    requires file.pos == 0 && file.turn == 0
    modifies file
    ensures out == Displayed(file.data, file.cut, entries, page)
  {
    var found, linesRead, offset := FindPage(file, (page - 1) * entries);
    if !found {
      return END_OF_FILE;
    }
    file.pos := offset;
    out := ShowLines(file, linesRead, page * entries);
  }

  // ---------- when the right page is shown ----------

  /** The size of the first read. */
  function FirstRead(s: string, cut: nat -> nat): nat {
    ReadSize(cut(0), |s|)
  }

  /** The program seeks to the page exactly if the page starts in the first read, or at the start
      of the file. Where reads are full, as they are on a regular file, that is byte 1024. */
  lemma SeeksRightExactly(s: string, cut: nat -> nat, target: int)
    requires target <= Lines(s)
    ensures Offset(s, cut, target) == After(s, target) <==> target <= 0 || After(s, target) <= FirstRead(s, cut)
    ensures cut(0) >= 1024 ==>
              (Offset(s, cut, target) == After(s, target) <==> target <= 0 || After(s, target) <= 1024)
  {
  }

  /** So it shows the page, or that there is none, whatever the arguments. */
  lemma ShowsPage(s: string, cut: nat -> nat, entries: int, page: int)
    requires var target := Target(entries, page);
             target <= 0 || target > Lines(s) || After(s, target) <= FirstRead(s, cut)
    ensures Displayed(s, cut, entries, page) == Page(s, entries, page)
    ensures (page - 1) * entries > Lines(s) ==> Displayed(s, cut, entries, page) == "End of file reached.\n"
  {
    var target := Target(entries, page);
    if target <= Lines(s) { SeeksRightExactly(s, cut, target); }
  }

  /** The line at `p` does not also end an earlier line. */
  ghost predicate Distinctive(s: string, p: nat)
    requires p <= |s|
  {
    forall o :: 0 <= o < p ==> Shown(s, o, 1) != Shown(s, p, 1)
  }

  /** And it shows the page in no other case, if the page's first line tells the place. */
  lemma ShowsPageExactly(s: string, cut: nat -> nat, entries: int, page: int)
    requires var target := Target(entries, page);
             1 <= entries && 0 < target <= Lines(s) && Distinctive(s, After(s, target))
    ensures Displayed(s, cut, entries, page) == Page(s, entries, page)
            <==> After(s, Target(entries, page)) <= FirstRead(s, cut)
  {
    PageLength(entries, page);
    TextTellsPlace(s, cut, Target(entries, page), entries);
  }

  lemma TextTellsPlace(s: string, cut: nat -> nat, target: int, n: int)
    requires 1 <= n && 0 < target <= Lines(s) && Distinctive(s, After(s, target))
    ensures Shown(s, Offset(s, cut, target), n) == Shown(s, After(s, target), n)
            <==> After(s, target) <= FirstRead(s, cut)
  {
    var p, o := After(s, target), Offset(s, cut, target);
    SeeksRightExactly(s, cut, target);
    if o != p && Shown(s, o, n) == Shown(s, p, n) {
      FirstLinesAgree(s, o, p, n);
      assert false;
    }
  }

  lemma FirstLinesAgree(s: string, o: nat, p: nat, n: int)
    requires o <= |s| && p <= |s| && 1 <= n && Shown(s, o, n) == Shown(s, p, n)
    ensures Shown(s, o, 1) == Shown(s, p, 1)
  {
    FirstLineOf(s, o, n);
    FirstLineOf(s, p, n);
  }

  lemma PageLength(entries: int, page: int)
    ensures 0 < Target(entries, page) ==> Wanted(entries, page) == entries
  {
  }

  lemma {:induction false} FirstLineKept(s: string, n: int)
    requires 1 <= n
    ensures Before(s, 1) <= Before(s, n) && Before(s[..Before(s, n)], 1) == Before(s, 1)
  {
    if s != [] && s[0] != NEWLINE {
      FirstLineKept(s[1..], n);
      assert s[..Before(s, n)][1..] == s[1..][..Before(s[1..], n)];
    }
  }

  lemma FirstLineOf(s: string, p: nat, n: int)
    requires p <= |s| && 1 <= n
    ensures var text := Shown(s, p, n); Shown(s, p, 1) == text[..Before(text, 1)]
  {
    FirstLineKept(s[p..], n);
    assert Shown(s, p, n) == s[p..][..Before(s[p..], n)];
  }

  /** A file of three lines read two bytes at a time, one line to a page: the third page is asked
      for and the second line is shown. */
  lemma LatePageIsWrong()
    ensures Page("a\nb\nc\n", 1, 3) == "c" && Displayed("a\nb\nc\n", _ => 2, 1, 3) == "b"
  {
    var d := "a\nb\nc\n";
    assert d[1..] == "\nb\nc\n" && d[1..][1..] == "b\nc\n" && d[2..] == "b\nc\n" && d[4..] == "c\n";
    assert "b\nc\n"[1..] == "\nc\n" && "\nc\n"[1..] == "c\n" && "c\n"[1..] == "\n" && "\n"[1..] == "";
    assert Lines("c\n") == 1 && Lines("b\nc\n") == 2;
    assert After("b\nc\n", 1) == 2;
    assert Before("b\nc\n", 1) == 1 && Before("c\n", 1) == 1;
  }

  // ---------- pages against the file ----------

  lemma {:induction false} BeforeLater(s: string, a: nat, b: nat)
    requires 1 <= b && a <= Lines(s)
    ensures Before(s, a + b) == After(s, a) + Before(s[After(s, a)..], b)
  {
    if a > 0 {
      assert s[1..][After(s, a) - 1..] == s[After(s, a)..];
      BeforeLater(s[1..], if s[0] == NEWLINE then a - 1 else a, b);
    }
  }

  /** The pages 1 to `pages`, with a newline between one and the next. */
  function Pages(s: string, entries: int, pages: nat): string {
    if pages == 0 then ""
    else if pages == 1 then Page(s, entries, 1)
    else Pages(s, entries, pages - 1) + [NEWLINE] + Page(s, entries, pages)
  }

  /** Consecutive pages rebuild the file, up to the newline that ends the last of them. */
  lemma {:induction false} PagesRebuildFile(s: string, entries: nat, pages: nat)
    requires 1 <= entries && 1 <= pages && Target(entries, pages) <= Lines(s)
    decreases pages
    ensures Pages(s, entries, pages) == s[..Before(s, pages * entries)]
  {
    TargetNext(entries, pages);
    if pages == 1 {
      FirstPage(s, entries);
    } else {
      PagesRebuildFile(s, entries, pages - 1);
      NextPage(s, entries, pages);
    }
  }

  lemma FirstPage(s: string, entries: nat)
    ensures Page(s, entries, 1) == s[..Before(s, 1 * entries)]
  {
    assert s[0..] == s;
  }

  lemma NextPage(s: string, entries: nat, page: nat)
    requires 1 <= entries && 2 <= page && Target(entries, page) <= Lines(s)
    ensures s[..Before(s, (page - 1) * entries)] + [NEWLINE] + Page(s, entries, page) == s[..Before(s, page * entries)]
  {
    TargetNext(entries, page);
    PageIs(s, entries, page);
    OnePageMore(s, Target(entries, page), entries);
  }

  lemma PageIs(s: string, entries: nat, page: nat)
    requires 1 <= entries && 1 <= page && Target(entries, page) <= Lines(s)
    ensures Page(s, entries, page) == Shown(s, After(s, Target(entries, page)), entries)
  {
    TargetNext(entries, page);
  }

  lemma OnePageMore(s: string, a: nat, b: nat)
    requires 1 <= a <= Lines(s) && 1 <= b
    ensures s[..Before(s, a)] + [NEWLINE] + Shown(s, After(s, a), b) == s[..Before(s, a + b)]
  {
    BeforeLater(s, a, b);
    BeforeAfter(s, a);
    var p := Before(s, a);
    assert s[..p] + [s[p]] == s[..p + 1];
  }

  lemma TargetNext(entries: nat, pages: nat)
    requires 1 <= pages
    ensures Target(entries, pages) >= 0 && pages * entries == Target(entries, pages) + entries
    ensures pages == 1 ==> Target(entries, pages) == 0
    ensures 2 <= pages ==> Target(entries, pages) == (pages - 1) * entries >= entries
    ensures 2 <= pages ==> Target(entries, pages - 1) <= Target(entries, pages)
  {
    MulStep(pages - 1, entries);
    if 2 <= pages { MulStep(pages - 2, entries); }
  }

  lemma {:induction false} MulStep(k: nat, e: nat)
    ensures (k + 1) * e == k * e + e && k * e >= 0
  {
    if k > 0 { MulStep(k - 1, e); }
  }

  /** The first five lines are page 1 at five to a page, and the newline that ends it. */
  lemma FirstFiveIsPageOne(s: string)
    ensures s[..After(s, 5)] == Page(s, 5, 1) + (if 5 <= Lines(s) then "\n" else "")
  {
    BeforeAfter(s, FIRST);
    assert s[0..] == s;
  }
}
