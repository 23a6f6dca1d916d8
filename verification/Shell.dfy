/** The interpreter of the mini-shell (lab/isexecutable.c, lab/main.c) as it runs: it walks the
    argument array with two indices, writes NULL over operators, and changes the shell's
    descriptor table. It is proved against the evaluator of segments. */
module Shell {
  import opened CStrings
  import opened Options
  import opened Tokenizer
  import opened CommandLine
  import opened Evaluator

  type Fds = map<nat, Handle>

  /** A child process with the descriptor table it was forked with. */
  datatype Child = Child(pid: Pid, argv: seq<string>, fds: Fds)

  // ----- Descriptor tables -----

  lemma {:induction false} FullPrefix(fds: Fds, n: nat)
    requires forall i: nat | i < n :: i in fds
    ensures n <= |fds|
  {
    if n > 0 {
      var less := fds - {n - 1};
      assert less.Keys == fds.Keys - {n - 1};
      FullPrefix(less, n - 1);
    }
  }

  function LowestFreeFrom(fds: Fds, n: nat): (fd: nat)
    requires forall i: nat | i < n :: i in fds
    ensures fd !in fds && forall i: nat | i < fd :: i in fds
    decreases |fds| - n
  {
    if n in fds then
      FullPrefix(fds, n + 1);
      LowestFreeFrom(fds, n + 1)
    else n
  }

  /** The descriptor the kernel hands out next. */
  function LowestFree(fds: Fds): (fd: nat)
    ensures fd !in fds && forall i: nat | i < fd :: i in fds
  {
    LowestFreeFrom(fds, 0)
  }

  /** The open file behind a descriptor variable, where -1 means none. */
  function At(fds: Fds, fd: int): Option<Handle>
    requires fd == -1 || (0 <= fd && fd in fds)
  {
    if fd == -1 then None else Some(fds[fd])
  }

  /** The descriptors that `fdIn` and `fdOut` stand for. */
  function Pair(fdIn: int, fdOut: int): set<nat> {
    (if fdIn >= 0 then {fdIn as nat} else {}) + (if fdOut >= 0 then {fdOut as nat} else {})
  }

  function Listed(fdIn: int, fdOut: int): (fds: seq<nat>)
    ensures |fds| == (if fdIn >= 0 then 1 else 0) + (if fdOut >= 0 then 1 else 0)
  {
    (if fdIn >= 0 then [fdIn as nat] else []) + (if fdOut >= 0 then [fdOut as nat] else [])
  }

  /** `fdIn` and `fdOut` are -1 or distinct open descriptors other than 0 and 1. */
  predicate Carried(fds: Fds, fdIn: int, fdOut: int) {
    && (fdIn == -1 || (fdIn >= 2 && fdIn in fds))
    && (fdOut == -1 || (fdOut >= 2 && fdOut in fds))
    && (fdIn == fdOut ==> fdIn == -1)
  }

  function Own(fds: Fds): Terminal
    requires 0 in fds && 1 in fds
  {
    Terminal(fds[0], fds[1])
  }

  /** The table inside `execute` after the two dups. */
  function Saved(fds: Fds): Fds
    requires 0 in fds && 1 in fds
  {
    var fds1 := fds[LowestFree(fds) := fds[0]];
    fds1[LowestFree(fds1) := fds1[1]]
  }

  /** The table with the given descriptors, if any, on 0 and 1. */
  function Placed(fds: Fds, fdIn: int, fdOut: int): Fds
    requires 0 in fds && 1 in fds && Carried(fds, fdIn, fdOut)
  {
    fds[0 := At(fds, fdIn).Or(fds[0])][1 := At(fds, fdOut).Or(fds[1])]
  }

  /** The table a child of `execute` is forked with. */
  function ForkTable(fds: Fds, fdIn: int, fdOut: int): Fds
    requires 0 in fds && 1 in fds && Carried(fds, fdIn, fdOut)
  {
    Placed(Saved(fds), fdIn, fdOut)
  }

  predicate SameAboveOne(a: Fds, b: Fds) {
    a.Keys == b.Keys && forall fd | fd in a && fd > 1 :: a[fd] == b[fd]
  }

  /** `now` is `before` but for copies of descriptors 0 and 1 on `savedIn` and `savedOut`
      (-1 for a dup that failed) and, if both were saved, for what is on 0 and 1. */
  predicate Backup(before: Fds, now: Fds, savedIn: int, savedOut: int) {
    && 0 in before && 1 in before
    && now.Keys == before.Keys + Pair(savedIn, savedOut)
    && (savedIn != -1 ==> savedIn >= 0 && savedIn !in before && now[savedIn] == before[0])
    && (savedOut != -1 ==> savedOut >= 0 && savedOut !in before && now[savedOut] == before[1])
    && (savedIn == savedOut ==> savedIn == -1)
    && (forall fd | fd in before && fd > 1 :: now[fd] == before[fd])
    && (savedIn == -1 || savedOut == -1 ==> now[0] == before[0] && now[1] == before[1])
  }

  /** What a non-empty command comes to, with `moves` descriptors to put in place: a builtin runs
      in the shell and starts no child; any other command starts one if the fork succeeds. */
  predicate Outcome(w: World, argv: seq<string>, moves: nat, t: nat, pid: int, r: Result, newChildren: int)
    requires argv != []
  {
    var last := t + 2 + moves;
    if exists i :: t <= i < last && !w.ok(i) then r == Failed && pid == -1 && newChildren == 0
    else if argv[0] in ["hostname", "cd", "pwd"] then r.Builtin? && pid == -1 && newChildren == 0
    else if w.ok(last) then r.Started? && pid == w.pid(last) && newChildren == 1
    else r == Failed && pid == -1 && newChildren == 0
  }

  lemma LaunchOutcome(w: World, own: Terminal, argv: seq<string>, input: Option<Handle>, output: Option<Handle>, t: nat)
    requires argv != []
    ensures var r := Launch(w, own, argv, input, output, t).0;
            Outcome(w, argv, Count(input) + Count(output), t, if r.Started? then r.pid else -1, r, if r.Started? then 1 else 0)
  {
    hide Launch;
    LaunchExactly(w, own, argv, input, output, t);
  }

  // ----- What holds while a line is walked -----

  /** The local variables of `is_executable`, without its array of process ids. */
  datatype Walk = Walk(cmd: nat, curr: nat, fdIn: int, fdOut: int, count: nat)

  /** The shell when `is_executable` was called. */
  datatype Start = Start(t: nat, fds: Fds, children: seq<Child>, events: seq<Event>)

  /** Pipes and files in the table were opened before tick t. */
  predicate IdsBelow(fds: Fds, t: nat) {
    forall fd | fd in fds :: fds[fd].Inherited? || fds[fd].id < t
  }

  /** A write end of a pipe made at tick `since` or later. */
  predicate WriteEndSince(h: Handle, since: nat) {
    h.PipeWrite? && h.id >= since
  }

  /** Each write end made since then is held by at most one of the children, on descriptor 1. */
  predicate Exclusive(children: seq<Child>, since: nat, t: nat) {
    && (forall i | 0 <= i < |children| :: 0 in children[i].fds && 1 in children[i].fds && IdsBelow(children[i].fds, t))
    && (forall i, fd | 0 <= i < |children| && fd in children[i].fds && WriteEndSince(children[i].fds[fd], since) ::
          children[i].fds[1] == children[i].fds[fd])
    && (forall i, j | 0 <= i < j < |children| && WriteEndSince(children[i].fds[1], since) ::
          children[j].fds[1] != children[i].fds[1])
  }

  /** Of the pipes made since then, the table holds no write end but on `fdOut`. */
  predicate WritersOnly(fds: Fds, children: seq<Child>, since: nat, t: nat, fdOut: int) {
    && IdsBelow(fds, t)
    && (forall fd | fd in fds && WriteEndSince(fds[fd], since) :: fd == fdOut)
    && Exclusive(children, since, if fdOut >= 0 && fdOut in fds && WriteEndSince(fds[fdOut], since) then fds[fdOut].id else t)
  }

  predicate ChildrenBelow(children: seq<Child>, t: nat) {
    forall i | 0 <= i < |children| :: IdsBelow(children[i].fds, t)
  }

  /** No write end made since then is held by the shell and by a child that writes to it. */
  predicate Parted(fds: Fds, children: seq<Child>, since: nat) {
    forall fd, i | fd in fds && WriteEndSince(fds[fd], since) && 0 <= i < |children| && 1 in children[i].fds ::
      children[i].fds[1] != fds[fd]
  }

  predicate Distinct(s: seq<nat>) {
    forall i, j | 0 <= i < j < |s| :: s[i] != s[j]
  }

  /** A table consists of the one the line started with, the leaked descriptors, and `extra`. */
  ghost predicate Split(before: Fds, now: Fds, stuck: seq<nat>, extra: set<nat>) {
    && 0 in before && 1 in before
    && Distinct(stuck)
    && (forall fd | fd in before :: fd in now && now[fd] == before[fd] && fd !in stuck && fd !in extra)
    && (forall fd | fd in stuck :: fd in now && fd !in extra)
    && (forall fd | fd in extra :: fd in now)
    && (forall fd | fd in now :: fd in before || fd in stuck || fd in extra)
  }

  /** Descriptors 0 and 1 are open, and on the files they were on before. */
  predicate Rooted(before: Fds, now: Fds) {
    0 in before && 1 in before && 0 in now && 1 in now && now[0] == before[0] && now[1] == before[1]
  }

  lemma ForkedExclusive(fds: Fds, children: seq<Child>, since: nat, t: nat, u: nat, fdIn: int, fdOut: int, child: Child)
    requires 0 in fds && 1 in fds && Carried(fds, fdIn, fdOut) && t <= u
    requires WritersOnly(fds, children, since, t, fdOut) && child.fds == ForkTable(fds, fdIn, fdOut)
    ensures Exclusive(children + [child], since, u)
  {
    var all := children + [child];
    assert forall fd | fd in child.fds && WriteEndSince(child.fds[fd], since) :: child.fds[fd] == fds[fdOut] && child.fds[1] == fds[fdOut];
    forall i, j | 0 <= i < j < |all| && WriteEndSince(all[i].fds[1], since)
      ensures all[j].fds[1] != all[i].fds[1]
    {
      if j == |children| {
        assert all[i] == children[i] && all[j] == child;
      }
    }
  }

  lemma WritersClosed(fds: Fds, children: seq<Child>, since: nat, t: nat, u: nat, fdIn: int, fdOut: int)
    requires WritersOnly(fds, children, since, t, fdOut) && Carried(fds, fdIn, fdOut) && t <= u
    ensures WritersOnly(fds - Pair(fdIn, fdOut), children, since, u, -1)
  {
  }

  lemma WritersForked(fds: Fds, children: seq<Child>, since: nat, t: nat, u: nat, fdIn: int, fdOut: int, child: Child)
    requires 0 in fds && 1 in fds && Carried(fds, fdIn, fdOut) && t <= u
    requires WritersOnly(fds, children, since, t, fdOut) && child.fds == ForkTable(fds, fdIn, fdOut)
    ensures WritersOnly(fds - Pair(fdIn, fdOut), children + [child], since, u, -1)
  {
    ForkedExclusive(fds, children, since, t, u, fdIn, fdOut, child);
  }

  lemma SplitClosed(before: Fds, now: Fds, stuck: seq<nat>, extra: set<nat>, pair: set<nat>)
    requires Split(before, now, stuck, extra) && pair <= extra
    ensures Split(before, now - pair, stuck, extra - pair) && Rooted(before, now - pair)
  {
  }

  lemma SplitLeaked(before: Fds, now: Fds, stuck: seq<nat>, extra: set<nat>, fdIn: int, fdOut: int)
    requires Split(before, now, stuck, extra) && Carried(now, fdIn, fdOut) && Pair(fdIn, fdOut) <= extra
    ensures Split(before, now, stuck + Listed(fdIn, fdOut), extra - Pair(fdIn, fdOut))
  {
    assert forall fd :: fd in Listed(fdIn, fdOut) <==> fd in Pair(fdIn, fdOut);
    assert forall fd | fd in Pair(fdIn, fdOut) :: fd in extra;
  }

  lemma SplitNone(before: Fds, now: Fds)
    requires Split(before, now, [], {})
    ensures now == before
  {
  }

  lemma SplitLess(before: Fds, now: Fds, stuck: seq<nat>)
    requires Split(before, now, stuck, {}) && stuck != []
    ensures stuck[|stuck| - 1] in now
    ensures Split(before, now - {stuck[|stuck| - 1]}, stuck[..|stuck| - 1], {})
  {
    assert stuck == stuck[..|stuck| - 1] + [stuck[|stuck| - 1]];
  }

  lemma OneLess(now: Fds, fd: nat)
    requires fd in now
    ensures |now| == |now - {fd}| + 1
  {
    assert now.Keys == (now - {fd}).Keys + {fd};
  }

  lemma {:induction false} SplitSize(before: Fds, now: Fds, stuck: seq<nat>)
    requires Split(before, now, stuck, {})
    ensures |now| == |before| + |stuck|
    ensures stuck == [] ==> now == before
    decreases |stuck|
  {
    hide Split;
    if stuck == [] {
      SplitNone(before, now);
    } else {
      var last := stuck[|stuck| - 1];
      SplitLess(before, now, stuck);
      OneLess(now, last);
      SplitSize(before, now - {last}, stuck[..|stuck| - 1]);
    }
  }

  lemma SplitOpened(before: Fds, now: Fds, stuck: seq<nat>, extra: set<nat>, fd: nat, h: Handle)
    requires Split(before, now, stuck, extra) && fd !in now
    ensures Split(before, now[fd := h], stuck, extra + {fd}) && Rooted(before, now[fd := h])
  {
  }

  /** The table after a redirection: the file on a new descriptor, or none, in the place of
      what its direction had. */
  predicate Reopened(now: Fds, after: Fds, replaced: int, fd: int, h: Handle) {
    var closed := now - Pair(replaced, -1);
    if fd < 0 then fd == -1 && after == closed else fd >= 2 && fd !in closed && after == closed[fd as nat := h]
  }

  lemma SplitReopened(before: Fds, now: Fds, after: Fds, stuck: seq<nat>, fdIn: int, fdOut: int, input: bool, fd: int, h: Handle)
    requires Split(before, now, stuck, Pair(fdIn, fdOut)) && Carried(now, fdIn, fdOut)
    requires Reopened(now, after, if input then fdIn else fdOut, fd, h)
    ensures var newIn, newOut := if input then fd else fdIn, if input then fdOut else fd;
            Split(before, after, stuck, Pair(newIn, newOut)) && Rooted(before, after) && Carried(after, newIn, newOut)
  {
    var replaced := Pair(if input then fdIn else fdOut, -1);
    SplitClosed(before, now, stuck, Pair(fdIn, fdOut), replaced);
    var kept := Pair(fdIn, fdOut) - replaced;
    assert kept == if input then Pair(-1, fdOut) else Pair(fdIn, -1);
    if fd >= 0 {
      SplitOpened(before, now - replaced, stuck, kept, fd, h);
      assert kept + {fd as nat} == if input then Pair(fd, fdOut) else Pair(fdIn, fd);
    }
  }

  /** A new descriptor that is no write end adds no writer. */
  lemma WritersReopened(now: Fds, after: Fds, replaced: int, fd: int, h: Handle, children: seq<Child>, since: nat, t: nat)
    requires WritersOnly(now, children, since, t, -1) && Reopened(now, after, replaced, fd, h)
    requires !h.PipeWrite? && (h.Inherited? || h.id <= t)
    ensures WritersOnly(after, children, since, t + 1, -1)
  {
  }

  /** What one stage does to the line's bookkeeping. */
  ghost predicate StageBooks(before: Fds, fds0: Fds, fds1: Fds, stuck0: seq<nat>, stuck1: seq<nat>, mine0: seq<Child>, mine1: seq<Child>,
                             fdIn: int, fdOut: int, r: Result, argv: seq<string>)
    requires 0 in fds0 && 1 in fds0 && Carried(fds0, fdIn, fdOut)
  {
    && fds1 == (if r.Refused? then fds0 else fds0 - Pair(fdIn, fdOut))
    && stuck1 == (if r.Refused? then stuck0 + Listed(fdIn, fdOut) else stuck0)
    && mine1 == (if r.Started? then mine0 + [Child(r.pid, argv, ForkTable(fds0, fdIn, fdOut))] else mine0)
  }

  lemma StageKeeps(before: Fds, fds0: Fds, fds1: Fds, stuck0: seq<nat>, stuck1: seq<nat>, mine0: seq<Child>, mine1: seq<Child>,
                   fdIn: int, fdOut: int, r: Result, argv: seq<string>, extra: set<nat>, since: nat, t: nat, u: nat)
    requires Split(before, fds0, stuck0, extra) && Carried(fds0, fdIn, fdOut) && Pair(fdIn, fdOut) <= extra
    requires WritersOnly(fds0, mine0, since, t, fdOut) && t <= u
    requires StageBooks(before, fds0, fds1, stuck0, stuck1, mine0, mine1, fdIn, fdOut, r, argv)
    ensures Split(before, fds1, stuck1, extra - Pair(fdIn, fdOut))
    ensures if r.Refused? then (t == u ==> WritersOnly(fds1, mine1, since, u, fdOut)) && (fdOut >= 0 ==> fdOut in stuck1)
            else WritersOnly(fds1, mine1, since, u, -1)
    ensures Parted(fds1, mine1, since)
  {
    if r.Refused? {
      SplitLeaked(before, fds0, stuck0, extra, fdIn, fdOut);
    } else {
      SplitClosed(before, fds0, stuck0, extra, Pair(fdIn, fdOut));
      if r.Started? {
        WritersForked(fds0, mine0, since, t, u, fdIn, fdOut, mine1[|mine1| - 1]);
      } else {
        WritersClosed(fds0, mine0, since, t, u, fdIn, fdOut);
      }
    }
  }

  /** The reader of pipe `id` sees its end: no running process holds a write end of it. The
      shell's table is `fds` and `running` are the indices of the children that still run. */
  ghost predicate SeesEnd(id: nat, fds: Fds, children: seq<Child>, running: set<nat>) {
    && (forall fd | fd in fds :: fds[fd] != PipeWrite(id))
    && (forall i, fd | i in running && i < |children| && fd in children[i].fds :: children[i].fds[fd] != PipeWrite(id))
  }

  /** The children are the given processes, in order. */
  predicate Shows(children: seq<Child>, processes: seq<Process>) {
    && |children| == |processes|
    && forall i | 0 <= i < |children| ::
         && 0 in children[i].fds && 1 in children[i].fds
         && processes[i] == Process(children[i].pid, children[i].argv, children[i].fds[0], children[i].fds[1])
  }

  /** One more call, and the child it has started, if any. */
  lemma ShowsMore(children: seq<Child>, line: seq<Event>, e: Event, more: seq<Child>)
    requires Shows(children, Processes(line))
    requires if ProcessOf(e) == [] then more == children
             else |more| == |children| + 1 && more[..|children|] == children && Shows(more[|children|..], ProcessOf(e))
    ensures Shows(more, Processes(line + [e]))
  {
    assert (line + [e])[..|line|] == line;
    if ProcessOf(e) != [] {
      assert more == children + [more[|children|]] && more[|children|..] == [more[|children|]];
    }
  }

  /** The table a child is forked with has on 0 and 1 what the call says it has. */
  lemma ForkShows(w: World, fds: Fds, argv: seq<string>, fdIn: int, fdOut: int, t: nat)
    requires 0 in fds && 1 in fds && Carried(fds, fdIn, fdOut)
    ensures var r := Launch(w, Own(fds), argv, At(fds, fdIn), At(fds, fdOut), t).0;
            r.Started? ==>
              Shows([Child(r.pid, argv, ForkTable(fds, fdIn, fdOut))], ProcessOf(Executed(argv, At(fds, fdIn), At(fds, fdOut), r)))
  {
  }

  lemma StageShows(w: World, fds: Fds, argv: seq<string>, fdIn: int, fdOut: int, t: nat, line: seq<Event>, mine0: seq<Child>, mine1: seq<Child>)
    requires 0 in fds && 1 in fds && Carried(fds, fdIn, fdOut) && Shows(mine0, Processes(line))
    requires var r := Launch(w, Own(fds), argv, At(fds, fdIn), At(fds, fdOut), t).0;
             mine1 == if r.Started? then mine0 + [Child(r.pid, argv, ForkTable(fds, fdIn, fdOut))] else mine0
    ensures var r := Launch(w, Own(fds), argv, At(fds, fdIn), At(fds, fdOut), t).0;
            Shows(mine1, Processes(line + [Executed(argv, At(fds, fdIn), At(fds, fdOut), r)]))
  {
    var r := Launch(w, Own(fds), argv, At(fds, fdIn), At(fds, fdOut), t).0;
    ForkShows(w, fds, argv, fdIn, fdOut, t);
    ShowsMore(mine0, line, Executed(argv, At(fds, fdIn), At(fds, fdOut), r), mine1);
  }

  predicate RefusedWith(line: seq<Event>, h: Handle) {
    exists k | 0 <= k < |line| :: line[k].Executed? && line[k].result.Refused? && line[k].output == Some(h)
  }

  /** A write end made since then that the shell holds was leaked by a refused stage. */
  predicate LeakedOnly(fds: Fds, line: seq<Event>, since: nat) {
    forall fd | fd in fds && WriteEndSince(fds[fd], since) :: RefusedWith(line, fds[fd])
  }

  lemma LeakedMore(fds: Fds, line: seq<Event>, since: nat, e: Event)
    requires LeakedOnly(fds, line, since)
    ensures LeakedOnly(fds, line + [e], since)
  {
    forall fd | fd in fds && WriteEndSince(fds[fd], since)
      ensures RefusedWith(line + [e], fds[fd])
    {
      var k :| 0 <= k < |line| && line[k].Executed? && line[k].result.Refused? && line[k].output == Some(fds[fd]);
      assert (line + [e])[k] == line[k];
    }
  }

  /** A stage leaks at most its own output. */
  lemma StageLeaks(fds0: Fds, fds1: Fds, children: seq<Child>, since: nat, t: nat, fdIn: int, fdOut: int, line: seq<Event>,
                   argv: seq<string>, r: Result)
    requires WritersOnly(fds0, children, since, t, fdOut) && Carried(fds0, fdIn, fdOut)
    requires fds1 == if r.Refused? then fds0 else fds0 - Pair(fdIn, fdOut)
    ensures LeakedOnly(fds1, line + [Executed(argv, At(fds0, fdIn), At(fds0, fdOut), r)], since)
  {
    var e := Executed(argv, At(fds0, fdIn), At(fds0, fdOut), r);
    assert (line + [e])[|line|] == e;
  }

  /** How things stand when the calls `line` have been made since tick `since`: the children
      `mine` are the processes they have started, each write end made meanwhile is held by one
      of them at most, and none that one of them writes to is held by the shell. The children
      `before` were there already. */
  predicate Settled(line: seq<Event>, since: nat, t: nat, fds: Fds, before: seq<Child>, mine: seq<Child>) {
    && Shows(mine, Processes(line)) && Exclusive(mine, since, t) && Parted(fds, mine, since) && LeakedOnly(fds, line, since)
    && ChildrenBelow(before, since)
  }

  predicate Told(s: Start, mine: seq<Child>, events: seq<Event>) {
    s.events <= events && Shows(mine, Processes(events[|s.events|..]))
  }

  /** Within a line: of the pipes made since it started, the table holds no write end but on
      `fdOut`, and the line's children are the processes its calls have started. */
  predicate Writing(s: Start, t: nat, fds: Fds, children: seq<Child>, mine: seq<Child>, events: seq<Event>, fdOut: int) {
    s.t <= t && children == s.children + mine && WritersOnly(fds, mine, s.t, t, fdOut) && Told(s, mine, events)
  }

  /** At every wait: the line's children are the processes its calls have started, and the shell
      holds no write end that one of them writes to. */
  predicate Waitable(s: Start, t: nat, fds: Fds, children: seq<Child>, mine: seq<Child>, events: seq<Event>) {
    && s.t <= t && IdsBelow(fds, t) && children == s.children + mine
    && Exclusive(mine, s.t, t) && Parted(fds, mine, s.t) && Told(s, mine, events) && LeakedOnly(fds, events[|s.events|..], s.t)
  }

  lemma AwaitNext(group: seq<Pid>, i: nat)
    requires i < |group|
    ensures AwaitAll(group[..i + 1]) == AwaitAll(group[..i]) + [Awaited(group[i])]
  {
  }

  lemma StatusNext(w: World, group: seq<Pid>, i: nat, r: Result, status: Status, last: Status, t: nat)
    requires i < |group|
    ensures var now := if w.wait(t).Delivered? then w.wait(t).status else status;
            LastStatus(w, group[i..], r, status, last, t) ==
            LastStatus(w, group[i + 1..], r, now, if IsPid(r, group[i]) then now else last, t + 1)
  {
    assert group[i..][1..] == group[i + 1..];
  }

  lemma StatusEnds(w: World, group: seq<Pid>, r: Result, status: Status, last: Status, t: nat)
    ensures LastStatus(w, group[|group|..], r, status, last, t) == last
  {
  }

  lemma ToldMore(s: Start, mine: seq<Child>, events: seq<Event>, pid: Pid)
    requires Told(s, mine, events)
    ensures Told(s, mine, events + [Awaited(pid)])
  {
    var line := events[|s.events|..];
    assert (events + [Awaited(pid)])[|s.events|..] == line + [Awaited(pid)];
    ShowsMore(mine, line, Awaited(pid), mine);
  }

  /** Between two operators the shell may wait. */
  lemma WritingMayWait(s: Start, t: nat, fds: Fds, children: seq<Child>, mine: seq<Child>, events: seq<Event>)
    requires Writing(s, t, fds, children, mine, events, -1)
    ensures Waitable(s, t, fds, children, mine, events)
  {
  }

  lemma WritingAny(s: Start, t: nat, fds: Fds, children: seq<Child>, mine: seq<Child>, events: seq<Event>, fdOut: int)
    requires Writing(s, t, fds, children, mine, events, -1)
    ensures Writing(s, t, fds, children, mine, events, fdOut)
    ensures fdOut >= 0 && fdOut in fds ==> !WriteEndSince(fds[fdOut], s.t)
  {
  }

  lemma WaitableCloses(s: Start, t: nat, fds: Fds, children: seq<Child>, mine: seq<Child>, events: seq<Event>, closed: set<nat>)
    requires Waitable(s, t, fds, children, mine, events)
    ensures Waitable(s, t, fds - closed, children, mine, events)
  {
  }

  /** A call that fails changes nothing but the time. */
  lemma WritingLater(s: Start, t: nat, fds: Fds, children: seq<Child>, mine: seq<Child>, events: seq<Event>)
    requires Writing(s, t, fds, children, mine, events, -1)
    ensures Writing(s, t + 1, fds, children, mine, events, -1)
  {
  }

  /** The table after a pipe is made: with both ends, or without the write end if the stage's
      output is redirected. */
  lemma SplitPiped(before: Fds, now: Fds, after: Fds, stuck: seq<nat>, fdIn: int, fdOut: int, read: nat, write: nat, id: nat)
    requires Split(before, now, stuck, Pair(fdIn, fdOut)) && Carried(now, fdIn, fdOut) && read !in now && write !in now && read != write
    requires after == if fdOut != -1 then now[read := PipeRead(id)] else now[read := PipeRead(id)][write := PipeWrite(id)]
    ensures var output := if fdOut != -1 then fdOut else write;
            Split(before, after, stuck, Pair(fdIn, output) + {read}) && Rooted(before, after)
  {
    SplitOpened(before, now, stuck, Pair(fdIn, fdOut), read, PipeRead(id));
    if fdOut == -1 {
      SplitOpened(before, now[read := PipeRead(id)], stuck, Pair(fdIn, fdOut) + {read}, write, PipeWrite(id));
      assert Pair(fdIn, fdOut) + {read} + {write} == Pair(fdIn, write) + {read};
    }
  }

  lemma WritingPiped(s: Start, t: nat, fds: Fds, after: Fds, children: seq<Child>, mine: seq<Child>, events: seq<Event>,
                     fdOut: int, read: nat, write: nat)
    requires Writing(s, t, fds, children, mine, events, -1)
    requires after == if fdOut != -1 then fds[read := PipeRead(t)] else fds[read := PipeRead(t)][write := PipeWrite(t)]
    requires fdOut == -1 || (fdOut in fds && fdOut != read) || fdOut !in after
    ensures Writing(s, t + 1, after, children, mine, events, if fdOut != -1 then fdOut else write)
  {
  }

  lemma WritingReopened(s: Start, t: nat, fds: Fds, after: Fds, children: seq<Child>, mine: seq<Child>, events: seq<Event>,
                        replaced: int, fd: int, h: Handle)
    requires Writing(s, t, fds, children, mine, events, -1) && Reopened(fds, after, replaced, fd, h)
    requires !h.PipeWrite? && (h.Inherited? || h.id <= t)
    ensures Writing(s, t + 1, after, children, mine, events, -1)
  {
    WritersReopened(fds, after, replaced, fd, h, mine, s.t, t);
  }

  lemma Waits(s: Start, t: nat, fds: Fds, children: seq<Child>, mine: seq<Child>, events: seq<Event>, pid: Pid)
    requires Waitable(s, t, fds, children, mine, events)
    ensures Waitable(s, t + 1, fds, children, mine, events + [Awaited(pid)])
    ensures Writing(s, t, fds, children, mine, events, -1) ==> Writing(s, t + 1, fds, children, mine, events + [Awaited(pid)], -1)
  {
    ToldMore(s, mine, events, pid);
    LeakedMore(fds, events[|s.events|..], s.t, Awaited(pid));
    assert (events + [Awaited(pid)])[|s.events|..] == events[|s.events|..] + [Awaited(pid)];
  }

  lemma StageTold(s: Start, w: World, fds: Fds, argv: seq<string>, fdIn: int, fdOut: int, t: nat, events: seq<Event>,
                  mine0: seq<Child>, mine1: seq<Child>)
    requires 0 in fds && 1 in fds && Carried(fds, fdIn, fdOut) && Told(s, mine0, events)
    requires var r := Launch(w, Own(fds), argv, At(fds, fdIn), At(fds, fdOut), t).0;
             mine1 == if r.Started? then mine0 + [Child(r.pid, argv, ForkTable(fds, fdIn, fdOut))] else mine0
    ensures var r := Launch(w, Own(fds), argv, At(fds, fdIn), At(fds, fdOut), t).0;
            Told(s, mine1, events + [Executed(argv, At(fds, fdIn), At(fds, fdOut), r)])
  {
    var r := Launch(w, Own(fds), argv, At(fds, fdIn), At(fds, fdOut), t).0;
    var e, line := Executed(argv, At(fds, fdIn), At(fds, fdOut), r), events[|s.events|..];
    assert (events + [e])[|s.events|..] == line + [e];
    StageShows(w, fds, argv, fdIn, fdOut, t, line, mine0, mine1);
  }

  /** What one stage does to what the line has told and leaked. */
  lemma StageTells(s: Start, w: World, fds0: Fds, fds1: Fds, children0: seq<Child>, mine0: seq<Child>, mine1: seq<Child>, events: seq<Event>,
                   fdIn: int, fdOut: int, argv: seq<string>, t: nat, r: Result)
    requires 0 in fds0 && 1 in fds0 && Carried(fds0, fdIn, fdOut) && Writing(s, t, fds0, children0, mine0, events, fdOut)
    requires r == Launch(w, Own(fds0), argv, At(fds0, fdIn), At(fds0, fdOut), t).0
    requires fds1 == if r.Refused? then fds0 else fds0 - Pair(fdIn, fdOut)
    requires mine1 == if r.Started? then mine0 + [Child(r.pid, argv, ForkTable(fds0, fdIn, fdOut))] else mine0
    ensures var after := events + [Executed(argv, At(fds0, fdIn), At(fds0, fdOut), r)];
            Told(s, mine1, after) && LeakedOnly(fds1, after[|s.events|..], s.t)
  {
    var e, line := Executed(argv, At(fds0, fdIn), At(fds0, fdOut), r), events[|s.events|..];
    StageTold(s, w, fds0, argv, fdIn, fdOut, t, events, mine0, mine1);
    StageLeaks(fds0, fds1, mine0, s.t, t, fdIn, fdOut, line, argv, r);
    assert (events + [e])[|s.events|..] == line + [e];
  }

  lemma RefusedKeepsIds(fds0: Fds, fds1: Fds, mine: seq<Child>, since: nat, t: nat, fdIn: int, fdOut: int, r: Result)
    requires r.Refused? && fds1 == fds0 && WritersOnly(fds0, mine, since, t, fdOut) && Carried(fds0, fdIn, fdOut)
    ensures IdsBelow(fds1, t) && Exclusive(mine, since, t)
    ensures fdOut == -1 || !WriteEndSince(fds0[fdOut as nat], since) ==> WritersOnly(fds1, mine, since, t, -1)
  {
  }

  /** What one stage leaves behind. */
  lemma StageSettles(s: Start, w: World, fds0: Fds, fds1: Fds, stuck0: seq<nat>, stuck1: seq<nat>, children0: seq<Child>, mine0: seq<Child>,
                     mine1: seq<Child>, children1: seq<Child>, events: seq<Event>, fdIn: int, fdOut: int, argv: seq<string>, extra: set<nat>,
                     t: nat, r: Result, u: nat)
    requires Split(s.fds, fds0, stuck0, extra) && Carried(fds0, fdIn, fdOut) && Pair(fdIn, fdOut) <= extra
    requires Rooted(s.fds, fds0)
    requires Writing(s, t, fds0, children0, mine0, events, fdOut)
    requires (r, u) == Launch(w, Own(fds0), argv, At(fds0, fdIn), At(fds0, fdOut), t)
    requires StageBooks(s.fds, fds0, fds1, stuck0, stuck1, mine0, mine1, fdIn, fdOut, r, argv)
    requires children1 == if r.Started? then children0 + [Child(r.pid, argv, ForkTable(fds0, fdIn, fdOut))] else children0
    ensures Split(s.fds, fds1, stuck1, extra - Pair(fdIn, fdOut)) && Rooted(s.fds, fds1)
    ensures var after := events + [Executed(argv, At(fds0, fdIn), At(fds0, fdOut), r)];
            && Waitable(s, u, fds1, children1, mine1, after)
            && (!r.Refused? || fdOut == -1 || !WriteEndSince(fds0[fdOut as nat], s.t) ==>
                  Writing(s, u, fds1, children1, mine1, after, -1))
  {
    hide Split, Exclusive, IdsBelow, Parted, Told, LeakedOnly, LaunchSaved;
    assert children1 == s.children + mine1;
    LaunchTakesTime(w, Own(fds0), argv, At(fds0, fdIn), At(fds0, fdOut), t);
    StageKeeps(s.fds, fds0, fds1, stuck0, stuck1, mine0, mine1, fdIn, fdOut, r, argv, extra, s.t, t, u);
    StageTells(s, w, fds0, fds1, children0, mine0, mine1, events, fdIn, fdOut, argv, t, r);
    if r.Refused? {
      RefusedKeepsIds(fds0, fds1, mine0, s.t, t, fdIn, fdOut, r);
    }
  }

  /** Closing what the walk still carried. */
  lemma Finishes(s: Start, t: nat, fds: Fds, stuck: seq<nat>, children: seq<Child>, mine: seq<Child>, events: seq<Event>, fdIn: int, fdOut: int)
    requires Split(s.fds, fds, stuck, Pair(fdIn, fdOut)) && Waitable(s, t, fds, children, mine, events)
    ensures Split(s.fds, fds - Pair(fdIn, fdOut), stuck, Pair(-1, -1)) && Rooted(s.fds, fds - Pair(fdIn, fdOut))
    ensures Waitable(s, t, fds - Pair(fdIn, fdOut), children, mine, events)
  {
    SplitClosed(s.fds, fds, stuck, Pair(fdIn, fdOut), Pair(fdIn, fdOut));
  }

  /** What a line leaves behind. */
  lemma LineLeaves(s: Start, t: nat, fds: Fds, stuck: seq<nat>, children: seq<Child>, mine: seq<Child>, line: seq<Event>)
    requires Split(s.fds, fds, stuck, Pair(-1, -1)) && Waitable(s, t, fds, children, mine, s.events + line)
    requires |stuck| == LeakCount(line) && ChildrenBelow(s.children, s.t)
    ensures |fds| == |s.fds| + LeakCount(line)
    ensures LeakCount(line) == 0 <==> fds == s.fds
    ensures s.children <= children && children[|s.children|..] == mine && ChildrenBelow(children, t)
    ensures Settled(line, s.t, t, fds, s.children, mine)
  {
    SplitSize(s.fds, fds, stuck);
    assert (s.events + line)[|s.events|..] == line;
    assert children[|s.children|..] == mine;
    forall i | 0 <= i < |children|
      ensures IdsBelow(children[i].fds, t)
    {
      if i < |s.children| {
        assert children[i] == s.children[i] && IdsBelow(s.children[i].fds, s.t);
      } else {
        assert children[i] == mine[i - |s.children|];
      }
    }
  }

  lemma HoldsWriteEnd(id: nat, line: seq<Event>, since: nat, t: nat, fds: Fds, before: seq<Child>, mine: seq<Child>, n: nat)
    requires Settled(line, since, t, fds, before, mine) && since <= id && n < |mine| && mine[n].fds[1] == PipeWrite(id)
    ensures forall fd | fd in fds :: fds[fd] != PipeWrite(id)
    ensures forall i, fd | 0 <= i < |before + mine| && fd in (before + mine)[i].fds && (before + mine)[i].fds[fd] == PipeWrite(id) ::
              i == |before| + n
  {
    var all := before + mine;
    assert WriteEndSince(PipeWrite(id), since);
    forall i, fd | 0 <= i < |all| && fd in all[i].fds && all[i].fds[fd] == PipeWrite(id)
      ensures i == |before| + n
    {
      assert i >= |before| && mine[i - |before|].fds[1] == PipeWrite(id);
    }
  }

  /** For every stage that a line has started with a pipe of its own as output: of all children
      the shell ever had, just that stage's holds the write end, and the shell does not. So the
      pipe's reader sees the end exactly when that process is gone. */
  lemma EndsWithItsStage(line: seq<Event>, since: nat, t: nat, fds: Fds, before: seq<Child>, mine: seq<Child>, k: nat, id: nat, running: set<nat>)
    requires Settled(line, since, t, fds, before, mine) && since <= id
    requires k < |line| && line[k].Executed? && line[k].result.Started? && line[k].result.stdout == PipeWrite(id)
    ensures var n := |before| + |Processes(line[..k])|; var all := before + mine;
            && n < |all| && all[n].pid == line[k].result.pid && all[n].argv == line[k].argv
            && 1 in all[n].fds && all[n].fds[1] == PipeWrite(id)
            && (forall i, fd | 0 <= i < |all| && fd in all[i].fds && all[i].fds[fd] == PipeWrite(id) :: i == n)
            && (SeesEnd(id, fds, all, running) <==> n !in running)
  {
    ProcessAt(line, k);
    var n := |Processes(line[..k])|;
    assert mine[n].fds[1] == PipeWrite(id) && (before + mine)[|before| + n] == mine[n];
    HoldsWriteEnd(id, line, since, t, fds, before, mine, n);
  }

  /** Every wait of a line finds things settled. */
  lemma WaitsSettled(s: Start, t: nat, fds: Fds, children: seq<Child>, mine: seq<Child>, events: seq<Event>)
    requires Waitable(s, t, fds, children, mine, events) && ChildrenBelow(s.children, s.t)
    ensures s.events <= events && Settled(events[|s.events|..], s.t, t, fds, s.children, mine)
  {
  }

  /** Where a stage of a line is piped on, it writes a pipe of its own unless its output is
      redirected, and the next stage is given that pipe's read end. */
  predicate PipedOn(segs: seq<Segment>, made: seq<Event>, i: nat, id: nat) {
    && i < |made| <= |segs| && made[i].Executed? && made[i].argv == segs[i].argv
    && (LastOutput(segs[i].redirects) == None ==> made[i].output == Some(PipeWrite(id)))
    && (LastOutput(segs[i].redirects) == None && made[i].result.Started? ==> made[i].result.stdout == PipeWrite(id))
    && (i + 1 < |made| ==> made[i + 1].Executed? && InputIs(made[i + 1].input, segs[i + 1].redirects, Some(PipeRead(id))))
  }

  lemma StagePiped(w: World, own: Terminal, tokens: seq<string>, since: nat, i: nat) returns (ids: seq<nat>)
    requires var made := Executions(EvalLine(w, own, tokens, since)); i < |made| && i < |Parse(tokens)| && Parse(tokens)[i].ending == PipeTo
    ensures var made, segs := Executions(EvalLine(w, own, tokens, since)), Parse(tokens);
            Wired(own, segs, made, None, ids, since) && i < |ids| && ids[i] >= since && PipedOn(segs, made, i, ids[i])
  {
    var made, segs := Executions(EvalLine(w, own, tokens, since)), Parse(tokens);
    ids := LineConnects(w, own, tokens, since);
    assert StageWired(own, segs[i], made[i], Given(segs, ids, None, i), ids[i]);
    if i + 1 < |made| {
      assert StageWired(own, segs[i + 1], made[i + 1], Given(segs, ids, None, i + 1), ids[i + 1]);
    }
  }

  /** So in every line, once its calls are made: where a started stage is piped on and its output
      is not redirected, it writes a pipe of its own, the next stage is given the read end of
      that pipe, and the pipe ends exactly when the stage's own process, the n-th of the shell's
      children, is gone. */
  lemma StageEndsItsPipe(w: World, own: Terminal, tokens: seq<string>, line: seq<Event>, since: nat, t: nat, fds: Fds,
                         before: seq<Child>, mine: seq<Child>, i: nat, running: set<nat>) returns (id: nat, n: nat)
    requires line == EvalLine(w, own, tokens, since) && Settled(line, since, t, fds, before, mine)
    requires i < |Executions(line)| && Executions(line)[i].Executed? && Executions(line)[i].result.Started?
    requires i < |Parse(tokens)| && Parse(tokens)[i].ending == PipeTo && LastOutput(Parse(tokens)[i].redirects) == None
    ensures PipedOn(Parse(tokens), Executions(line), i, id)
    ensures n < |before + mine| && (before + mine)[n].pid == Executions(line)[i].result.pid && (before + mine)[n].argv == Parse(tokens)[i].argv
    ensures SeesEnd(id, fds, before + mine, running) <==> n !in running
  {
    hide Settled, Wired, EvalLine, Executions, Parse;
    var ids := StagePiped(w, own, tokens, since, i);
    var k := ExecutionFrom(line, i);
    id, n := ids[i], |before| + |Processes(line[..k])|;
    EndsWithItsStage(line, since, t, fds, before, mine, k, id, running);
  }

  /** No call and no process of a line has as its output the pipe behind a stage whose output is
      redirected. */
  lemma NoneWrites(own: Terminal, segs: seq<Segment>, line: seq<Event>, ids: seq<nat>, since: nat, i: nat, k: nat)
    requires Wired(own, segs, Executions(line), None, ids, since) && i < |ids| && k < |line| && line[k].Executed?
    requires segs[i].ending == PipeTo && LastOutput(segs[i].redirects).Some?
    ensures line[k].output != Some(PipeWrite(ids[i]))
    ensures line[k].result.Started? && own.stdout != PipeWrite(ids[i]) ==> line[k].result.stdout != PipeWrite(ids[i])
  {
    ExecutionAt(line, k);
    var j := |Executions(line[..k])|;
    assert StageWired(own, segs[j], Executions(line)[j], Given(segs, ids, None, j), ids[j]);
    assert j < i && segs[j].ending == PipeTo ==> ids[j] < ids[i];
    assert i < j ==> ids[i] < ids[j];
  }

  /** And where the output of a stage that is piped on is redirected, its pipe ends at once. */
  lemma RedirectedEndsAtOnce(w: World, own: Terminal, tokens: seq<string>, line: seq<Event>, since: nat, t: nat, fds: Fds,
                             before: seq<Child>, mine: seq<Child>, i: nat, running: set<nat>) returns (id: nat)
    requires line == EvalLine(w, own, tokens, since) && Settled(line, since, t, fds, before, mine)
    requires own.stdout.PipeWrite? ==> own.stdout.id < since
    requires i < |Executions(line)| && i < |Parse(tokens)|
    requires Parse(tokens)[i].ending == PipeTo && LastOutput(Parse(tokens)[i].redirects).Some?
    ensures PipedOn(Parse(tokens), Executions(line), i, id) && SeesEnd(id, fds, before + mine, running)
  {
    var ids := StagePiped(w, own, tokens, since, i);
    id := ids[i];
    ShellHoldsNone(own, Parse(tokens), line, ids, since, t, fds, before, mine, i);
    forall n | 0 <= n < |mine|
      ensures mine[n].fds[1] != PipeWrite(id)
    {
      var k := ProcessFrom(line, n);
      NoneWrites(own, Parse(tokens), line, ids, since, i, k);
    }
    NoChildHolds(id, line, since, t, fds, before, mine);
  }

  lemma ShellHoldsNone(own: Terminal, segs: seq<Segment>, line: seq<Event>, ids: seq<nat>, since: nat, t: nat, fds: Fds,
                       before: seq<Child>, mine: seq<Child>, i: nat)
    requires Settled(line, since, t, fds, before, mine) && Wired(own, segs, Executions(line), None, ids, since) && i < |ids|
    requires segs[i].ending == PipeTo && LastOutput(segs[i].redirects).Some?
    ensures forall fd | fd in fds :: fds[fd] != PipeWrite(ids[i])
  {
    assert ids[i] >= since;
    forall fd | fd in fds && WriteEndSince(fds[fd], since)
      ensures fds[fd] != PipeWrite(ids[i])
    {
      var k :| 0 <= k < |line| && line[k].Executed? && line[k].result.Refused? && line[k].output == Some(fds[fd]);
      NoneWrites(own, segs, line, ids, since, i, k);
    }
  }

  lemma NoChildHolds(id: nat, line: seq<Event>, since: nat, t: nat, fds: Fds, before: seq<Child>, mine: seq<Child>)
    requires Settled(line, since, t, fds, before, mine) && since <= id
    requires forall n | 0 <= n < |mine| :: mine[n].fds[1] != PipeWrite(id)
    ensures forall i, fd | 0 <= i < |before + mine| && fd in (before + mine)[i].fds :: (before + mine)[i].fds[fd] != PipeWrite(id)
  {
    assert WriteEndSince(PipeWrite(id), since);
    forall i, fd | 0 <= i < |before + mine| && fd in (before + mine)[i].fds
      ensures (before + mine)[i].fds[fd] != PipeWrite(id)
    {
      if i < |before| {
        assert IdsBelow(before[i].fds, since);
      } else {
        assert (before + mine)[i] == mine[i - |before|];
      }
    }
  }

  /** The argument array `a` from `from` on is `ts` and the closing NULL. */
  predicate Ahead(a: seq<Option<string>>, from: nat, ts: seq<string>) {
    && |a| == from + |ts| + 1
    && (forall i | from <= i < from + |ts| :: a[i] == Some(ts[i - from]))
    && a[from + |ts|] == None
  }

  /** What is left to parse when the walk is at `k`. */
  function Rest(a: seq<Option<string>>, tokens: seq<string>, k: Walk): seq<Segment>
    requires k.cmd <= k.curr <= |tokens| < |a|
  {
    ParseFrom(k.cmd == k.curr, if k.cmd == k.curr then [] else BeforeNull(a[k.cmd..]), [], tokens[k.curr..])
  }

  /** The command that starts at `cmd` ends with a NULL at or before `end`. */
  predicate CommandEnds(a: seq<Option<string>>, cmd: nat, end: nat) {
    && cmd <= end < |a|
    && cmd + |BeforeNull(a[cmd..])| <= end
    && a[cmd + |BeforeNull(a[cmd..])|] == None
  }

  lemma {:induction false} BeforeNullFrame(a: seq<Option<string>>, b: seq<Option<string>>)
    requires |BeforeNull(a)| < |a| && |BeforeNull(a)| < |b|
    requires forall i | 0 <= i <= |BeforeNull(a)| :: a[i] == b[i]
    ensures BeforeNull(b) == BeforeNull(a)
  {
    if BeforeNull(a) != [] {
      BeforeNullFrame(a[1..], b[1..]);
    }
  }

  /** The segments that follow once the operator at `end` is known. */
  function Found(op: Option<Operator>, argv: seq<string>, tokens: seq<string>, end: nat): seq<Segment>
    requires end <= |tokens| && (op.Some? && op.value != Background ==> end < |tokens|)
  {
    match op
    case None => [Segment(argv, [], Finish)]
    case Some(Background) => [Segment(argv, [], Ampersand)]
    case Some(Pipe) => [Segment(argv, [], PipeTo)] + Parse(tokens[end + 1..])
    case Some(And) => [Segment(argv, [], AndThen)] + Parse(tokens[end + 1..])
    case Some(o) =>
      if end + 1 == |tokens| then [Segment(argv, [], NoFile)]
      else ParseFrom(false, argv, [if o == Out then Output(tokens[end + 1]) else Input(tokens[end + 1])], tokens[end + 2..])
  }

  /** What `get_op_type` reports for the rest `ts` of a line. */
  function NextOperator(ts: seq<string>): Option<Operator> {
    if FirstStop(ts) < |ts| then OperatorOf(ts[FirstStop(ts)])
    else if Glued(ts) then Some(Background)
    else None
  }

  lemma FoundAt(words: seq<string>, tokens: seq<string>, curr: nat, n: nat)
    requires curr + n < |tokens| && OperatorOf(tokens[curr + n]).Some?
    ensures Found(OperatorOf(tokens[curr..][n]), words, tokens, curr + n) == FromOperator(words, [], tokens[curr..], n)
  {
    assert tokens[curr..][n + 1..] == tokens[curr + n + 1..];
    if curr + n + 1 < |tokens| {
      assert tokens[curr..][n + 2..] == tokens[curr + n + 2..];
      var file := tokens[curr + n + 1];
      assert [] + [Output(file)] == [Output(file)] && [] + [Input(file)] == [Input(file)];
    }
  }

  lemma FoundParses(unread: bool, argv: seq<string>, words: seq<string>, tokens: seq<string>, curr: nat)
    requires curr <= |tokens|
    requires var ts := tokens[curr..];
             words == if !unread then argv else if FirstStop(ts) < |ts| then ts[..FirstStop(ts)] else Unglue(ts)
    ensures var ts := tokens[curr..]; ParseFrom(unread, argv, [], ts) == Found(NextOperator(ts), words, tokens, curr + FirstStop(ts))
  {
    var ts := tokens[curr..];
    var n := FirstStop(ts);
    if n < |ts| {
      ParsesFromOperator(unread, argv, [], ts, n);
      FoundAt(words, tokens, curr, n);
    }
  }

  lemma ArgvIs(a: seq<Option<string>>, cmd: nat, words: seq<string>)
    requires cmd + |words| < |a| && a[cmd + |words|] == None
    requires forall i | cmd <= i < cmd + |words| :: a[i] == Some(words[i - cmd])
    ensures BeforeNull(a[cmd..]) == words && CommandEnds(a, cmd, cmd + |words|)
  {
    assert forall i | 0 <= i < |words| :: a[cmd..][i] == a[cmd + i];
    BeforeNullIs(a[cmd..], words);
  }

  /** Writes behind a command's NULL leave the command as it is. */
  lemma ArgvKept(a: seq<Option<string>>, b: seq<Option<string>>, cmd: nat, end: nat)
    requires CommandEnds(a, cmd, end) && |b| == |a|
    requires forall i | cmd <= i <= end :: a[i] == b[i]
    ensures CommandEnds(b, cmd, end) && BeforeNull(b[cmd..]) == BeforeNull(a[cmd..])
  {
    BeforeNullFrame(a[cmd..], b[cmd..]);
  }

  /** The array after `get_op_type` has looked for the next operator in `ts`, from `from` on. */
  predicate OperatorCut(before: seq<Option<string>>, after: seq<Option<string>>, from: nat, ts: seq<string>) {
    var end := from + FirstStop(ts);
    && |after| == |before|
    && forall i | 0 <= i < |before| ::
         after[i] == if end < from + |ts| && i == end then None
                     else if end == from + |ts| && Glued(ts) && i == end - 1 then Some(Unglue(ts)[|ts| - 1])
                     else before[i]
  }

  /** The words of the command being read, once the next operator is known. */
  function WordsNow(before: seq<Option<string>>, k: Walk, tokens: seq<string>): seq<string>
    requires k.cmd <= k.curr <= |tokens| < |before|
  {
    var ts := tokens[k.curr..];
    if k.cmd < k.curr then BeforeNull(before[k.cmd..])
    else if FirstStop(ts) < |ts| then ts[..FirstStop(ts)]
    else Unglue(ts)
  }

  lemma CutAt(before: seq<Option<string>>, from: nat, ts: seq<string>, k: nat)
    requires Ahead(before, from, ts) && k == FirstStop(ts) < |ts|
    ensures OperatorCut(before, before[from + k := None], from, ts)
  {
  }

  lemma NoneCut(before: seq<Option<string>>, from: nat, ts: seq<string>)
    requires Ahead(before, from, ts) && FirstStop(ts) == |ts|
    ensures if Glued(ts) then OperatorCut(before, before[from + |ts| - 1 := Some(Unglue(ts)[|ts| - 1])], from, ts)
            else OperatorCut(before, before, from, ts)
  {
  }

  /** One step of the search for the first operator. */
  lemma StopStep(ts: seq<string>, k: nat)
    requires k < |ts| && FirstStop(ts) == k + FirstStop(ts[k..])
    ensures if OperatorOf(ts[k]).Some? then FirstStop(ts) == k else FirstStop(ts) == k + 1 + FirstStop(ts[k + 1..])
  {
    assert ts[k..][1..] == ts[k + 1..];
  }

  /** The command's words come after `cmd` and before the operator. */
  lemma ScanSettlesHere(before: seq<Option<string>>, after: seq<Option<string>>, curr: nat, tokens: seq<string>)
    requires curr <= |tokens| && Ahead(before, curr, tokens[curr..]) && OperatorCut(before, after, curr, tokens[curr..])
    ensures var ts := tokens[curr..];
            && CommandEnds(after, curr, curr + FirstStop(ts))
            && BeforeNull(after[curr..]) == if FirstStop(ts) < |ts| then ts[..FirstStop(ts)] else Unglue(ts)
  {
    var ts := tokens[curr..];
    ArgvIs(after, curr, if FirstStop(ts) < |ts| then ts[..FirstStop(ts)] else Unglue(ts));
  }

  lemma AheadBehindCut(before: seq<Option<string>>, after: seq<Option<string>>, curr: nat, tokens: seq<string>)
    requires curr <= |tokens| && Ahead(before, curr, tokens[curr..]) && OperatorCut(before, after, curr, tokens[curr..])
    ensures var end := curr + FirstStop(tokens[curr..]);
            end < |tokens| ==> Ahead(after, end + 1, tokens[end + 1..])
  {
  }

  lemma ScanSettles(before: seq<Option<string>>, after: seq<Option<string>>, k: Walk, tokens: seq<string>)
    requires k.cmd <= k.curr <= |tokens| && Ahead(before, k.curr, tokens[k.curr..])
    requires k.cmd < k.curr ==> CommandEnds(before, k.cmd, k.curr - 1)
    requires OperatorCut(before, after, k.curr, tokens[k.curr..])
    ensures var ts := tokens[k.curr..];
            var end := k.curr + FirstStop(ts);
            && CommandEnds(after, k.cmd, end)
            && BeforeNull(after[k.cmd..]) == WordsNow(before, k, tokens)
  {
    if k.cmd == k.curr {
      ScanSettlesHere(before, after, k.curr, tokens);
    } else {
      ArgvKept(before, after, k.cmd, k.curr - 1);
    }
  }

  lemma RestFound(before: seq<Option<string>>, k: Walk, tokens: seq<string>)
    requires k.cmd <= k.curr <= |tokens| < |before|
    ensures var ts := tokens[k.curr..];
            Rest(before, tokens, k) == Found(NextOperator(ts), WordsNow(before, k, tokens), tokens, k.curr + FirstStop(ts))
  {
    var argv := if k.cmd == k.curr then [] else BeforeNull(before[k.cmd..]);
    FoundParses(k.cmd == k.curr, argv, WordsNow(before, k, tokens), tokens, k.curr);
  }

  /** What one look for an operator settles: the command's words, which end before everything
      still ahead, and what the rest of the line parses to. */
  predicate Looked(before: seq<Option<string>>, after: seq<Option<string>>, k: Walk, tokens: seq<string>, op: Option<Operator>, end: nat)
    requires k.cmd <= k.curr <= |tokens| < |before|
  {
    && k.curr <= end <= |tokens| && (op.Some? && op.value != Background ==> end < |tokens|)
    && CommandEnds(after, k.cmd, end)
    && (end < |tokens| ==> Ahead(after, end + 1, tokens[end + 1..]))
    && Found(op, BeforeNull(after[k.cmd..]), tokens, end) == Rest(before, tokens, k)
    && |after| == |before| && forall i | 0 <= i < k.curr :: after[i] == before[i]
  }

  /** The array up to its first NULL, once the walk has passed it: the first segment's words. */
  predicate Front(a: seq<Option<string>>, tokens: seq<string>, passed: nat) {
    CommandEnds(a, 0, passed) && BeforeNull(a[0..]) == Parse(tokens)[0].argv
  }

  lemma FrontLater(a: seq<Option<string>>, tokens: seq<string>, passed: nat, later: nat)
    requires Front(a, tokens, passed) && passed <= later < |a|
    ensures Front(a, tokens, later)
  {
  }

  lemma FoundWords(op: Option<Operator>, argv: seq<string>, tokens: seq<string>, end: nat)
    requires end <= |tokens| && (op.Some? && op.value != Background ==> end < |tokens|)
    ensures Found(op, argv, tokens, end) != [] && Found(op, argv, tokens, end)[0].argv == argv
  {
    if (op == Some(Out) || op == Some(In)) && end + 1 < |tokens| {
      ParseKeepsWords(argv, [if op == Some(Out) then Output(tokens[end + 1]) else Input(tokens[end + 1])], tokens[end + 2..]);
    }
  }

  /** The first look settles the front of the array, and later ones write behind it. */
  lemma LookedFront(before: seq<Option<string>>, after: seq<Option<string>>, k: Walk, tokens: seq<string>, op: Option<Operator>, end: nat)
    requires k.cmd <= k.curr <= |tokens| < |before| && Looked(before, after, k, tokens, op, end)
    requires if k.curr == 0 then k.cmd == 0 else Front(before, tokens, k.curr - 1)
    ensures Front(after, tokens, end)
  {
    if k.curr == 0 {
      assert tokens[0..] == tokens;
      FoundWords(op, BeforeNull(after[0..]), tokens, end);
    } else {
      ArgvKept(before, after, 0, k.curr - 1);
    }
  }

  lemma ScanFinds(before: seq<Option<string>>, after: seq<Option<string>>, k: Walk, tokens: seq<string>)
    requires k.cmd <= k.curr <= |tokens| && Ahead(before, k.curr, tokens[k.curr..])
    requires k.cmd < k.curr ==> CommandEnds(before, k.cmd, k.curr - 1)
    requires OperatorCut(before, after, k.curr, tokens[k.curr..])
    ensures Looked(before, after, k, tokens, NextOperator(tokens[k.curr..]), k.curr + FirstStop(tokens[k.curr..]))
  {
    hide Found, Rest, BeforeNull, WordsNow, Ahead, CommandEnds;
    ScanSettles(before, after, k, tokens);
    AheadBehindCut(before, after, k.curr, tokens);
    RestFound(before, k, tokens);
  }

  /** The calls made at `&&` and those due add up, and so do the leaks. */
  lemma AndAdds(w: World, own: Terminal, argv: seq<string>, segs: seq<Segment>, e: Ends, pids: seq<Pid>, r: Result, u: nat, status: Status,
                events: seq<Event>, leaked: nat)
    requires (r, u) == Launch(w, own, argv, e.input, e.output, e.t)
    requires status == LastStatus(w, Joined(pids, r), r, w.junk(u), Exited(0), u)
    ensures var event, group := Executed(argv, e.input, e.output, r), Joined(pids, r);
            var rest, due := AfterAnd(w, own, segs, status, u + |group|), EvalEnding(w, own, argv, AndThen, segs, e, pids);
            && events + [event] + AwaitAll(group) + rest == events + due
            && leaked + Leaks(event) + LeakCount(rest) == leaked + LeakCount(due)
  {
    var event, group := Executed(argv, e.input, e.output, r), Joined(pids, r);
    AndUnfolds(w, own, argv, segs, e, pids, r, u, status);
    var rest := AfterAnd(w, own, segs, status, u + |group|);
    assert events + [event] + AwaitAll(group) + rest == events + ([event] + AwaitAll(group) + rest);
  }

  /** The calls made for a stage and those due add up, and so do the leaks. */
  lemma PipeAdds(w: World, own: Terminal, argv: seq<string>, segs: seq<Segment>, e: Ends, pids: seq<Pid>, output: Option<Handle>, r: Result, u: nat,
                 events: seq<Event>, leaked: nat)
    requires w.ok(e.t) && output == if e.output.Some? then e.output else Some(PipeWrite(e.t))
    requires (r, u) == Launch(w, own, argv, e.input, output, e.t + 1)
    ensures var event := Executed(argv, e.input, output, r);
            var rest := if r.Started? then Eval(w, own, segs, Ends(Some(PipeRead(e.t)), None, u), Joined(pids, r)) else AwaitAll(pids);
            var due := EvalEnding(w, own, argv, PipeTo, segs, e, pids);
            && events + [event] + rest == events + due
            && leaked + Leaks(event) + LeakCount(rest) == leaked + LeakCount(due)
  {
    PipeUnfolds(w, own, argv, segs, e, pids, output, r, u);
    var event := Executed(argv, e.input, output, r);
    var rest := if r.Started? then Eval(w, own, segs, Ends(Some(PipeRead(e.t)), None, u), Joined(pids, r)) else AwaitAll(pids);
    Advance(events, [event], rest);
  }

  lemma PipeFails(w: World, own: Terminal, argv: seq<string>, segs: seq<Segment>, e: Ends, pids: seq<Pid>)
    requires !w.ok(e.t)
    ensures EvalEnding(w, own, argv, PipeTo, segs, e, pids) == AwaitAll(pids)
  {
  }

  /** A segment that ends in `|` or `&&`. */
  lemma FoundThen(w: World, own: Terminal, op: Operator, argv: seq<string>, tokens: seq<string>, end: nat, e: Ends, pids: seq<Pid>)
    requires (op == Pipe || op == And) && end < |tokens|
    ensures Eval(w, own, Found(Some(op), argv, tokens, end), e, pids) ==
            EvalEnding(w, own, argv, if op == Pipe then PipeTo else AndThen, Parse(tokens[end + 1..]), e, pids)
  {
    EvalHead(w, own, argv, if op == Pipe then PipeTo else AndThen, Parse(tokens[end + 1..]), e, pids);
  }

  /** The last segment of a line. */
  lemma FoundLast(w: World, own: Terminal, op: Option<Operator>, argv: seq<string>, tokens: seq<string>, end: nat, e: Ends, pids: seq<Pid>)
    requires (op == None || op == Some(Background)) && end <= |tokens|
    ensures Eval(w, own, Found(op, argv, tokens, end), e, pids) ==
            EvalEnding(w, own, argv, if op == None then Finish else Ampersand, [], e, pids)
  {
    var ending := if op == None then Finish else Ampersand;
    EvalHead(w, own, argv, ending, [], e, pids);
    assert [Segment(argv, [], ending)] + [] == [Segment(argv, [], ending)];
  }

  /** A `>` or `<`: the line stops there or goes on with a redirection. */
  lemma FoundRedirect(w: World, own: Terminal, op: Option<Operator>, argv: seq<string>, tokens: seq<string>, end: nat,
                      e: Ends, pids: seq<Pid>)
    requires (op == Some(Out) || op == Some(In)) && end < |tokens|
    ensures end + 1 == |tokens| ==> Eval(w, own, Found(op, argv, tokens, end), e, pids) == AwaitAll(pids)
    ensures end + 1 < |tokens| ==>
              var r := if op == Some(Out) then Output(tokens[end + 1]) else Input(tokens[end + 1]);
              Found(op, argv, tokens, end) == Prepend([r], ParseFrom(false, argv, [], tokens[end + 2..]))
  {
    if end + 1 == |tokens| {
      EvalHead(w, own, argv, NoFile, [], e, pids);
      assert [Segment(argv, [], NoFile)] + [] == [Segment(argv, [], NoFile)];
    } else {
      ParsePrepends(false, argv, [if op == Some(Out) then Output(tokens[end + 1]) else Input(tokens[end + 1])], tokens[end + 2..]);
    }
  }

  /** What the array says at the top of the loop. */
  predicate Walking(a: seq<Option<string>>, tokens: seq<string>, k: Walk)
  {
    && k.cmd <= k.curr <= |tokens| && Ahead(a, k.curr, tokens[k.curr..])
    && (k.cmd < k.curr ==> CommandEnds(a, k.cmd, k.curr - 1))
    && 2 * k.count <= k.cmd
  }

  /** What the array says once the operator at `end` is known. */
  predicate Scanned(a: seq<Option<string>>, tokens: seq<string>, k: Walk, op: Option<Operator>, end: nat, argv: seq<string>)
  {
    && k.curr <= end <= |tokens| && (op.Some? && op.value != Background ==> end < |tokens|)
    && CommandEnds(a, k.cmd, end) && argv == BeforeNull(a[k.cmd..])
    && (end < |tokens| ==> Ahead(a, end + 1, tokens[end + 1..]))
    && 2 * k.count <= k.cmd
  }

  lemma WalkingBounds(a: seq<Option<string>>, tokens: seq<string>, k: Walk)
    requires Walking(a, tokens, k)
    ensures k.cmd <= k.curr <= |tokens| && |a| == |tokens| + 1
  {
  }

  /** What one look for an operator readies for the operator's own part. */
  lemma LookedReady(before: seq<Option<string>>, after: seq<Option<string>>, k: Walk, tokens: seq<string>, op: Option<Operator>, end: nat)
    requires Walking(before, tokens, k) && |before| == |tokens| + 1 && Looked(before, after, k, tokens, op, end)
    ensures k.curr <= end <= |tokens| && |after| == |tokens| + 1 && (op.Some? && op.value != Background ==> end < |tokens|)
    ensures k.cmd < |after| && None in after[k.cmd..] && Scanned(after, tokens, k, op, end, BeforeNull(after[k.cmd..]))
    ensures Found(op, BeforeNull(after[k.cmd..]), tokens, end) == Rest(before, tokens, k)
  {
    assert after[k.cmd..][|BeforeNull(after[k.cmd..])|] == None;
  }

  lemma StartsWalking(a: seq<Option<string>>, tokens: seq<string>)
    requires NullTerminated(a, tokens)
    ensures Walking(a, tokens, Walk(0, 0, -1, -1, 0)) && Rest(a, tokens, Walk(0, 0, -1, -1, 0)) == Parse(tokens)
  {
    assert tokens[0..] == tokens;
  }

  /** Behind an operator that ends a segment the walk starts afresh. */
  lemma WalksOn(a: seq<Option<string>>, tokens: seq<string>, k: Walk, op: Option<Operator>, end: nat, argv: seq<string>, next: Walk)
    requires Scanned(a, tokens, k, op, end, argv) && (op == Some(Pipe) || op == Some(And))
    requires next.cmd == next.curr == end + 1 && (next.count == 0 || (next.count == k.count + 1 && argv != []))
    ensures Walking(a, tokens, next) && Rest(a, tokens, next) == Parse(tokens[end + 1..])
  {
  }

  /** Behind a file name the walk goes on with the same command. */
  lemma WalksPast(a: seq<Option<string>>, tokens: seq<string>, k: Walk, op: Option<Operator>, end: nat, argv: seq<string>, next: Walk)
    requires Scanned(a, tokens, k, op, end, argv) && (op == Some(Out) || op == Some(In)) && end + 1 < |tokens|
    requires next.cmd == k.cmd && next.curr == end + 2 && next.count == k.count
    ensures a[end + 1] == Some(tokens[end + 1])
    ensures Walking(a, tokens, next) && Rest(a, tokens, next) == ParseFrom(false, argv, [], tokens[end + 2..])
  {
    assert tokens[end + 1..][0] == tokens[end + 1];
    assert tokens[end + 1..][1..] == tokens[end + 2..];
    assert forall i | end + 2 <= i < |tokens| :: tokens[end + 2..][i - (end + 2)] == tokens[i] == tokens[end + 1..][i - (end + 1)];
  }

  /** `check_builtin`: looks the command's name up in the table. */
  method CheckBuiltin(command: string) returns (found: bool)
    ensures found == IsBuiltin(command)
    ensures found <==> command == "hostname" || command == "cd" || command == "pwd"
  {
    found := false;
    var i := 0;
    while i < |BUILTINS| && !found
      invariant 0 <= i <= |BUILTINS|
      invariant found <==> command in BUILTINS[..i]
    {
      found := BUILTINS[i] == command;
      i := i + 1;
    }
    assert BUILTINS[..|BUILTINS|] == BUILTINS || found;
  }

  class Shell {
    const w: World
    var t: nat  // system calls made so far
    var fds: Fds
    var children: seq<Child>
    var events: seq<Event>
    // Of the current line: the descriptors leaked and the children started.
    ghost var stuck: seq<nat>
    ghost var mine: seq<Child>

    constructor (w: World, fds: Fds)
      ensures this.w == w && this.fds == fds && t == 0 && children == [] && events == []
    {
      this.w, this.fds, t, children, events := w, fds, 0, [], [];
      stuck, mine := [], [];
    }

    // ----- System calls -----

    method Dup(fd: nat) returns (r: int)
      modifies this`t, this`fds
      ensures t == old(t) + 1
      ensures if w.ok(old(t)) && fd in old(fds) then r == LowestFree(old(fds)) && fds == old(fds)[r := old(fds)[fd]]
              else r == -1 && fds == old(fds)
    {
      if w.ok(t) && fd in fds {
        var free := LowestFree(fds);
        fds := fds[free := fds[fd]];
        r := free;
      } else {
        r := -1;
      }
      t := t + 1;
    }

    method Dup2(fd: nat, target: nat) returns (r: int)
      modifies this`t, this`fds
      ensures t == old(t) + 1
      ensures if w.ok(old(t)) && fd in old(fds) then r == target && fds == old(fds)[target := old(fds)[fd]]
              else r == -1 && fds == old(fds)
    {
      if w.ok(t) && fd in fds {
        fds := fds[target := fds[fd]];
        r := target;
      } else {
        r := -1;
      }
      t := t + 1;
    }

    method Close(fd: nat)
      modifies this`fds
      ensures fds == old(fds) - {fd}
    {
      fds := fds - {fd};
    }

    method CloseCarried(fdIn: int, fdOut: int)
      requires fdIn >= -1 && fdOut >= -1
      modifies this`fds
      ensures fds == old(fds) - Pair(fdIn, fdOut)
    {
      if fdIn != -1 {
        Close(fdIn);
      }
      if fdOut != -1 {
        Close(fdOut);
      }
    }

    method Open(redirect: Redirect) returns (r: int)
      modifies this`t, this`fds
      ensures t == old(t) + 1
      ensures if w.ok(old(t)) then
                && r == LowestFree(old(fds))
                && fds == old(fds)[r := if redirect.Input? then FileIn(redirect.file, old(t)) else FileOut(redirect.file, old(t))]
              else r == -1 && fds == old(fds)
    {
      if w.ok(t) {
        var free := LowestFree(fds);
        fds := fds[free := if redirect.Input? then FileIn(redirect.file, t) else FileOut(redirect.file, t)];
        r := free;
      } else {
        r := -1;
      }
      t := t + 1;
    }

    /** The ends of a new pipe, or -1 twice. */
    method NewPipe() returns (read: int, write: int)
      modifies this`t, this`fds
      ensures t == old(t) + 1
      ensures if w.ok(old(t)) then
                && read == LowestFree(old(fds))
                && write == LowestFree(old(fds)[read := PipeRead(old(t))])
                && fds == old(fds)[read := PipeRead(old(t))][write := PipeWrite(old(t))]
              else read == -1 && write == -1 && fds == old(fds)
    {
      if w.ok(t) {
        var r := LowestFree(fds);
        fds := fds[r := PipeRead(t)];
        var s := LowestFree(fds);
        fds := fds[s := PipeWrite(t)];
        read, write := r, s;
      } else {
        read, write := -1, -1;
      }
      t := t + 1;
    }

    /** The child gets a copy of the table as it is now. */
    method Fork(argv: seq<string>) returns (pid: int)
      modifies this`t, this`children
      ensures t == old(t) + 1
      ensures if w.ok(old(t)) then pid == w.pid(old(t)) && children == old(children) + [Child(pid, argv, fds)]
              else pid == -1 && children == old(children)
    {
      if w.ok(t) {
        children := children + [Child(w.pid(t), argv, fds)];
        pid := w.pid(t);
      } else {
        pid := -1;
      }
      t := t + 1;
    }

    // ----- execute -----

    method SaveStandard() returns (savedIn: int, savedOut: int)
      requires 0 in fds && 1 in fds
      modifies this`t, this`fds
      ensures t == old(t) + 2
      ensures Backup(old(fds), fds, savedIn, savedOut)
      ensures savedIn != -1 && savedOut != -1 <==> w.ok(old(t)) && w.ok(old(t) + 1)
      ensures savedIn != -1 && savedOut != -1 ==> fds == Saved(old(fds))
    {
      savedIn := Dup(0);
      savedOut := Dup(1);
    }

    /** `execute`'s way back. The model takes the two restoring dup2s to succeed. */
    method RestoreStandard(ghost before: Fds, savedIn: int, savedOut: int)
      requires Backup(before, fds, savedIn, savedOut)
      modifies this`fds
      ensures fds == before
    {
      if savedIn != -1 {
        fds := fds[0 := fds[savedIn]];
        Close(savedIn);
      }
      if savedOut != -1 {
        fds := fds[1 := fds[savedOut]];
        Close(savedOut);
      }
    }

    /** Puts the given descriptors on 0 and 1; if one dup2 fails, only 0 can have changed. */
    method RedirectStandard(fdIn: int, fdOut: int) returns (done: bool)
      requires 0 in fds && 1 in fds && Carried(fds, fdIn, fdOut)
      modifies this`t, this`fds
      ensures SameAboveOne(old(fds), fds)
      ensures done ==> fds == Placed(old(fds), fdIn, fdOut)
      ensures var out2 := old(t) + Count(At(old(fds), fdIn));
              if fdIn != -1 && !w.ok(old(t)) then !done && t == old(t) + 1
              else if fdOut != -1 && !w.ok(out2) then !done && t == out2 + 1
              else done && t == out2 + Count(At(old(fds), fdOut))
    {
      done := true;
      if fdIn != -1 {
        var r := Dup2(fdIn, 0);
        done := r != -1;
      }
      if done && fdOut != -1 {
        var r := Dup2(fdOut, 1);
        done := r != -1;
      }
    }

    /** The part of `execute` between saving and restoring descriptors 0 and 1. */
    method RunRedirected(argv: seq<string>, fdIn: int, fdOut: int) returns (pid: int, result: Result)
      requires argv != [] && 0 in fds && 1 in fds && Carried(fds, fdIn, fdOut)
      modifies this`t, this`fds, this`children
      ensures SameAboveOne(old(fds), fds)
      ensures pid == if result.Started? then result.pid else -1
      ensures (result, t) == LaunchSaved(w, Own(old(fds)), argv, At(old(fds), fdIn), At(old(fds), fdOut), old(t))
      ensures children == old(children) + if result.Started? then [Child(result.pid, argv, Placed(old(fds), fdIn, fdOut))] else []
    {
      pid, result := -1, Failed;
      var redirected := RedirectStandard(fdIn, fdOut);
      if redirected {
        var builtin := CheckBuiltin(argv[0]);
        if builtin {
          result := Builtin(fds[0], fds[1]);
        } else {
          pid := Fork(argv);
          if pid != -1 {
            result := Started(pid, fds[0], fds[1]);
          }
        }
      }
    }

    /** Runs a non-empty command and puts descriptors 0 and 1 back. */
    method RunCommand(argv: seq<string>, fdIn: int, fdOut: int) returns (pid: int, result: Result)
      requires argv != [] && 0 in fds && 1 in fds && Carried(fds, fdIn, fdOut)
      modifies this`t, this`fds, this`children
      ensures (result, t) == Launch(w, Own(old(fds)), argv, At(old(fds), fdIn), At(old(fds), fdOut), old(t))
      ensures pid == if result.Started? then result.pid else -1
      ensures fds == old(fds)
      ensures children == old(children) + if result.Started? then [Child(result.pid, argv, ForkTable(old(fds), fdIn, fdOut))] else []
    {
      pid, result := -1, Failed;
      var savedIn, savedOut := SaveStandard();
      if savedIn != -1 && savedOut != -1 {
        pid, result := RunRedirected(argv, fdIn, fdOut);
      }
      RestoreStandard(old(fds), savedIn, savedOut);
    }

    /** `execute` for the words `argv`. On every path but the empty command the table ends up as
        it was, less the two descriptors handed in. */
    method Execute(argv: seq<string>, fdIn: int, fdOut: int) returns (pid: int, ghost r: Result)
      requires 0 in fds && 1 in fds && Carried(fds, fdIn, fdOut)
      modifies this`t, this`fds, this`children, this`events
      ensures (r, t) == Launch(w, Own(old(fds)), argv, At(old(fds), fdIn), At(old(fds), fdOut), old(t))
      ensures events == old(events) + [Executed(argv, At(old(fds), fdIn), At(old(fds), fdOut), r)]
      ensures pid == if r.Started? then r.pid else -1
      ensures r.Refused? <==> argv == []
      ensures fds == if r.Refused? then old(fds) else old(fds) - Pair(fdIn, fdOut)
      ensures !r.Started? ==> children == old(children)
      ensures r.Started? ==> children == old(children) + [Child(r.pid, argv, ForkTable(old(fds), fdIn, fdOut))]
      ensures argv != [] ==>
                Outcome(w, argv, Count(At(old(fds), fdIn)) + Count(At(old(fds), fdOut)), old(t), pid, r, |children| - |old(children)|)
    {
      hide Outcome;
      var input, output := At(fds, fdIn), At(fds, fdOut);
      if argv == [] {
        events := events + [Executed(argv, input, output, Refused)];
        return -1, Refused;
      }
      LaunchOutcome(w, Own(fds), argv, input, output, t);
      var result;
      pid, result := RunCommand(argv, fdIn, fdOut);
      r := result;
      CloseCarried(fdIn, fdOut);
      events := events + [Executed(argv, input, output, result)];
    }

    /** What `execvp` reads: the strings from `cmd` up to the NULL. */
    method ReadArgv(args: array<Option<string>>, cmd: nat) returns (argv: seq<string>)
      requires cmd < args.Length && None in args[cmd..]
      ensures argv == BeforeNull(args[cmd..])
    {
      argv := [];
      var i := cmd;
      while args[i].Some?
        invariant cmd <= i < args.Length && None in args[i..]
        invariant BeforeNull(args[cmd..]) == argv + BeforeNull(args[i..])
        decreases args.Length - i
      {
        argv := argv + [args[i].value];
        assert args[i..][1..] == args[i + 1..];
        i := i + 1;
      }
    }

    // ----- get_op_type -----

    /** The scan: up to the next operator or the NULL at the end. */
    method FindStop(args: array<Option<string>>, from: nat, ghost ts: seq<string>) returns (arg: nat)
      requires Ahead(args[..], from, ts)
      ensures arg == from + FirstStop(ts)
    {
      arg := from;
      while args[arg].Some? && OperatorOf(args[arg].value) == None
        invariant from <= arg < args.Length && arg - from <= |ts|
        invariant FirstStop(ts) == arg - from + FirstStop(ts[arg - from..])
        decreases args.Length - arg
      {
        assert args[arg].value == ts[arg - from];
        StopStep(ts, arg - from);
        arg := arg + 1;
      }
      if args[arg].Some? {
        StopStep(ts, arg - from);
      }
    }

    /** Finds the next operator and writes NULL over it, or cuts a glued `&` off the last word. */
    method GetOpType(args: array<Option<string>>, from: nat, ghost ts: seq<string>) returns (op: Option<Operator>, end: nat)
      requires Ahead(args[..], from, ts) && forall i | 0 <= i < |ts| :: ts[i] != []
      modifies args
      ensures end == from + FirstStop(ts)
      ensures op == NextOperator(ts)
      ensures OperatorCut(old(args[..]), args[..], from, ts)
    {
      ghost var before := args[..];
      end := FindStop(args, from, ts);
      op := None;
      if args[end].Some? {
        CutAt(before, from, ts, end - from);
        op := OperatorOf(args[end].value);
        args[end] := None;
        assert args[..] == before[end := None];
      } else {
        NoneCut(before, from, ts);
        if args[from].Some? {
          var last := args[end - 1].value;
          if last[|last| - 1] == '&' {
            args[end - 1] := Some(last[..|last| - 1]);
            assert args[..] == before[end - 1 := Some(last[..|last| - 1])];
            op := Some(Background);
          }
        }
      }
    }

    /** `get_op_type` from the walk's point of view. */
    method Scan(args: array<Option<string>>, k: Walk, ghost tokens: seq<string>) returns (op: Option<Operator>, end: nat)
      requires k.cmd <= k.curr <= |tokens| && Ahead(args[..], k.curr, tokens[k.curr..])
      requires k.cmd < k.curr ==> CommandEnds(args[..], k.cmd, k.curr - 1)
      requires forall i | 0 <= i < |tokens| :: tokens[i] != []
      modifies args
      ensures Looked(old(args[..]), args[..], k, tokens, op, end)
    {
      ghost var before := args[..];
      op, end := GetOpType(args, k.curr, tokens[k.curr..]);
      ScanFinds(before, args[..], k, tokens);
    }

    // ----- is_executable -----

    ghost predicate Tables(s: Start, extra: set<nat>)
      reads this
    {
      Rooted(s.fds, fds) && Split(s.fds, fds, stuck, extra)
    }

    ghost predicate Writers(s: Start, fdOut: int)
      reads this
    {
      Writing(s, t, fds, children, mine, events, fdOut)
    }

    ghost predicate MayWait(s: Start)
      reads this
    {
      Waitable(s, t, fds, children, mine, events)
    }

    /** `execute` within a line: it returns what it was handed, or leaks it. */
    method RunStage(argv: seq<string>, fdIn: int, fdOut: int, ghost s: Start, ghost extra: set<nat>)
      returns (pid: int, ghost r: Result)
      requires Tables(s, extra) && Carried(fds, fdIn, fdOut) && Pair(fdIn, fdOut) <= extra && Writers(s, fdOut)
      modifies this
      ensures Tables(s, extra - Pair(fdIn, fdOut))
      ensures (r, t) == Launch(w, Own(s.fds), argv, At(old(fds), fdIn), At(old(fds), fdOut), old(t))
      ensures events == old(events) + [Executed(argv, At(old(fds), fdIn), At(old(fds), fdOut), r)]
      ensures pid == if r.Started? then r.pid else -1
      ensures fds == if r.Refused? then old(fds) else old(fds) - Pair(fdIn, fdOut)
      ensures MayWait(s) && (!r.Refused? || fdOut == -1 || !WriteEndSince(old(fds)[fdOut as nat], s.t) ==> Writers(s, -1))
      ensures |stuck| == |old(stuck)| + Leaks(Executed(argv, At(old(fds), fdIn), At(old(fds), fdOut), r))
    {
      hide Waitable, Writing, Split;
      ghost var fds0, t0, children0, mine0, stuck0, events0 := fds, t, children, mine, stuck, events;
      pid, r := Execute(argv, fdIn, fdOut);
      if r.Refused? {
        stuck := stuck + Listed(fdIn, fdOut);
      }
      if r.Started? {
        mine := mine + [Child(r.pid, argv, ForkTable(fds0, fdIn, fdOut))];
      }
      StageSettles(s, w, fds0, fds, stuck0, stuck, children0, mine0, mine, children, events0, fdIn, fdOut, argv, extra, t0, r, t);
    }

    method WaitPid(pid: Pid, ghost s: Start) returns (r: Wait)
      requires MayWait(s)
      modifies this`t, this`events
      ensures MayWait(s) && (old(Writers(s, -1)) ==> Writers(s, -1))
      ensures r == w.wait(old(t)) && t == old(t) + 1
      ensures events == old(events) + [Awaited(pid)]
    {
      hide Waitable, Writing, Split;
      Waits(s, t, fds, children, mine, events, pid);
      r := w.wait(t);
      t := t + 1;
      events := events + [Awaited(pid)];
    }

    /** The closing loop: waits for every process of the pipeline. */
    method WaitAll(pids: array<Pid>, count: nat, ghost s: Start)
      requires count <= pids.Length && MayWait(s)
      modifies this`t, this`events
      ensures MayWait(s)
      ensures events == old(events) + AwaitAll(pids[..count])
    {
      hide Waitable, Writing, Split;
      ghost var group := pids[..count];
      for i := 0 to count
        invariant MayWait(s)
        invariant events == old(events) + AwaitAll(group[..i])
      {
        AwaitNext(group, i);
        var _ := WaitPid(pids[i], s);
      }
      assert group[..count] == group;
    }

    /** The loop at `&&`: waits for every process and keeps the status of the last stage. */
    method WaitGroup(pids: array<Pid>, count: nat, andPid: int, ghost r: Result, ghost s: Start) returns (lastStatus: Status)
      requires count <= pids.Length && MayWait(s)
      requires andPid == if r.Started? then r.pid else -1
      modifies this`t, this`events
      ensures MayWait(s) && (old(Writers(s, -1)) ==> Writers(s, -1))
      ensures events == old(events) + AwaitAll(pids[..count]) && t == old(t) + count
      ensures lastStatus == LastStatus(w, pids[..count], r, w.junk(old(t)), Exited(0), old(t))
    {
      hide Waitable, Writing, Split, LastStatus;
      ghost var group, writing := pids[..count], Writers(s, -1);
      assert group[0..] == group;
      var status := w.junk(t);
      lastStatus := Exited(0);
      for i := 0 to count
        invariant MayWait(s) && (writing ==> Writers(s, -1))
        invariant events == old(events) + AwaitAll(group[..i]) && t == old(t) + i
        invariant LastStatus(w, group, r, w.junk(old(t)), Exited(0), old(t)) == LastStatus(w, group[i..], r, status, lastStatus, t)
      {
        AwaitNext(group, i);
        StatusNext(w, group, i, r, status, lastStatus, t);
        var wait := WaitPid(pids[i], s);
        if wait.Delivered? {
          status := wait.status;
        }
        if pids[i] == andPid {
          lastStatus := status;
        }
      }
      StatusEnds(w, group, r, status, lastStatus, t);
      assert group[..count] == group;
    }

    /** Makes the pipe behind a stage and settles the stage's output: a redirection wins over
        the pipe, whose write end is then closed at once. */
    method MakePipe(fdIn: int, fdOut: int, ghost s: Start) returns (read: int, output: int)
      requires Tables(s, Pair(fdIn, fdOut)) && Carried(fds, fdIn, fdOut) && Writers(s, -1)
      modifies this`t, this`fds
      ensures t == old(t) + 1 && (read == -1 <==> !w.ok(old(t)))
      ensures read == -1 ==> output == fdOut && fds == old(fds) && Leaving(s, fdIn, fdOut)
      ensures read != -1 ==>
                && read >= 2 && read in fds && fds[read] == PipeRead(old(t))
                && Carried(fds, fdIn, output) && read != fdIn && read != output
                && Tables(s, Pair(fdIn, output) + {read as nat})
                && At(fds, fdIn) == old(At(fds, fdIn))
                && At(fds, output) == (if fdOut == -1 then Some(PipeWrite(old(t))) else old(At(fds, fdOut)))
                && Writers(s, output)
    {
      hide Waitable, Writing, Split;
      ghost var fds0, t0 := fds, t;
      var write;
      read, write := NewPipe();
      output := fdOut;
      if read == -1 {
        WritingLater(s, t0, fds, children, mine, events);
        WritingMayWait(s, t, fds, children, mine, events);
      } else {
        if fdOut != -1 {
          Close(write);
          assert fds == fds0[read := PipeRead(t0)];
        } else {
          output := write;
        }
        SplitPiped(s.fds, fds0, fds, stuck, fdIn, fdOut, read, write, t0);
        WritingPiped(s, t0, fds0, fds, children, mine, events, fdOut, read, write);
      }
    }

    method OpenInstead(replaced: int, redirect: Redirect, ghost h: Handle) returns (fd: int)
      requires 0 in fds && 1 in fds && (replaced == -1 || replaced >= 2)
      requires h == if redirect.Input? then FileIn(redirect.file, t) else FileOut(redirect.file, t)
      modifies this`t, this`fds
      ensures t == old(t) + 1 && Reopened(old(fds), fds, replaced, fd, h)
      ensures if w.ok(old(t)) then fd >= 2 && fd in fds && fds[fd] == h else fd == -1
    {
      if replaced != -1 {
        Close(replaced);
      }
      fd := Open(redirect);
    }

    /** `>` and `<`: closes what the direction had and opens the file instead. */
    method Reopen(redirect: Redirect, fdIn: int, fdOut: int, ghost s: Start) returns (newIn: int, newOut: int)
      requires Tables(s, Pair(fdIn, fdOut)) && Carried(fds, fdIn, fdOut) && Writers(s, -1)
      modifies this`t, this`fds
      ensures t == old(t) + 1 && Tables(s, Pair(newIn, newOut)) && Carried(fds, newIn, newOut) && Writers(s, -1)
      ensures redirect.Input? ==> newOut == fdOut && At(fds, newOut) == old(At(fds, fdOut))
      ensures redirect.Output? ==> newIn == fdIn && At(fds, newIn) == old(At(fds, fdIn))
      ensures redirect.Input? ==> At(fds, newIn) == if w.ok(old(t)) then Some(FileIn(redirect.file, old(t))) else None
      ensures redirect.Output? ==> At(fds, newOut) == if w.ok(old(t)) then Some(FileOut(redirect.file, old(t))) else None
    {
      hide Waitable, Writing, Split, Reopened;
      ghost var fds0 := fds;
      ghost var h := if redirect.Input? then FileIn(redirect.file, t) else FileOut(redirect.file, t);
      var replaced := if redirect.Input? then fdIn else fdOut;
      var fd := OpenInstead(replaced, redirect, h);
      newIn := if redirect.Input? then fd else fdIn;
      newOut := if redirect.Input? then fdOut else fd;
      WritingReopened(s, old(t), fds0, fds, children, mine, events, replaced, fd, h);
      SplitReopened(s.fds, fds0, fds, stuck, fdIn, fdOut, redirect.Input?, fd, h);
    }

    /** Records a started process. */
    method Push(pids: array<Pid>, count: nat, pid: int, ghost r: Result) returns (newCount: nat)
      requires pid == if r.Started? then r.pid else -1
      requires count <= pids.Length && (r.Started? ==> count < pids.Length)
      modifies pids
      ensures newCount <= pids.Length && pids[..newCount] == Joined(old(pids[..count]), r)
    {
      newCount := count;
      if pid > 0 {
        pids[count] := pid;
        newCount := count + 1;
      }
    }

    /** What the shell holds between two operators. */
    ghost predicate Holding(s: Start, fdIn: int, fdOut: int)
      reads this
    {
      Tables(s, Pair(fdIn, fdOut)) && Carried(fds, fdIn, fdOut) && Writers(s, -1)
    }

    /** What the shell holds when it leaves the line. */
    ghost predicate Leaving(s: Start, fdIn: int, fdOut: int)
      reads this
    {
      Tables(s, Pair(fdIn, fdOut)) && Carried(fds, fdIn, fdOut) && MayWait(s)
    }

    /** The ends a segment is handed in the table. */
    ghost function Handed(fdIn: int, fdOut: int): Ends
      requires Carried(fds, fdIn, fdOut)
      reads this
    {
      Ends(At(fds, fdIn), At(fds, fdOut), t)
    }

    /** A segment that is not piped on: runs it and records its process. */
    method RunAndRecord(argv: seq<string>, fdIn: int, fdOut: int, pids: array<Pid>, count: nat, ghost s: Start)
      returns (pid: int, newCount: nat, ghost r: Result)
      requires Holding(s, fdIn, fdOut) && count < pids.Length
      modifies this, pids
      ensures Holding(s, -1, -1) && MayWait(s) && newCount <= pids.Length
      ensures (r, t) == Launch(w, Own(s.fds), argv, old(Handed(fdIn, fdOut)).input, old(Handed(fdIn, fdOut)).output, old(t))
      ensures pid == if r.Started? then r.pid else -1
      ensures events == old(events) + [Executed(argv, old(Handed(fdIn, fdOut)).input, old(Handed(fdIn, fdOut)).output, r)]
      ensures pids[..newCount] == Joined(old(pids[..count]), r)
      ensures |stuck| == |old(stuck)| + Leaks(Executed(argv, old(Handed(fdIn, fdOut)).input, old(Handed(fdIn, fdOut)).output, r))
    {
      hide Waitable, Writing, Split;
      WritingAny(s, t, fds, children, mine, events, fdOut);
      pid, r := RunStage(argv, fdIn, fdOut, s, Pair(fdIn, fdOut));
      assert Pair(fdIn, fdOut) - Pair(fdIn, fdOut) == Pair(-1, -1);
      newCount := Push(pids, count, pid, r);
    }

    /** OP_NONE and OP_BACKGROUND: the last segment of the line. */
    method StepLast(argv: seq<string>, op: Option<Operator>, fdIn: int, fdOut: int, pids: array<Pid>, count: nat, ghost s: Start)
      returns (newCount: nat, ghost rest: seq<Event>)
      requires op == None || op == Some(Background)
      requires Holding(s, fdIn, fdOut) && count < pids.Length
      modifies this, pids
      ensures Leaving(s, -1, -1) && newCount <= pids.Length
      ensures rest == if op == None then AwaitAll(pids[..newCount]) else []
      ensures var due := EvalEnding(w, Own(s.fds), argv, if op == None then Finish else Ampersand, [],
                                    old(Handed(fdIn, fdOut)), old(pids[..count]));
              events + rest == old(events) + due && |stuck| + LeakCount(rest) == |old(stuck)| + LeakCount(due)
    {
      hide Waitable, Writing, Split, EvalEnding, Eval, LeakCount;
      ghost var handed, events0, group := Handed(fdIn, fdOut), events, pids[..count];
      var pid;
      ghost var r;
      pid, newCount, r := RunAndRecord(argv, fdIn, fdOut, pids, count, s);
      LastUnfolds(w, Own(s.fds), argv, if op == None then Finish else Ampersand, handed, group, r, t);
      rest := if op == None then AwaitAll(pids[..newCount]) else [];
      ghost var event := Executed(argv, handed.input, handed.output, r);
      Advance(events0, [event], rest);
    }

    /** OP_PIPE after a successful pipe(): runs the stage, keeps the read end for the next one. */
    method RunPiped(argv: seq<string>, fdIn: int, fdOut: int, read: nat, pids: array<Pid>, count: nat, ghost s: Start)
      returns (newIn: int, newCount: nat, ghost r: Result)
      requires Tables(s, Pair(fdIn, fdOut) + {read}) && Carried(fds, fdIn, fdOut) && Writers(s, fdOut) && fdOut != -1
      requires read >= 2 && read in fds && read != fdIn && read != fdOut && fds[read].PipeRead? && count < pids.Length
      modifies this, pids
      ensures Tables(s, Pair(newIn, -1)) && Carried(fds, newIn, -1) && MayWait(s) && newCount <= pids.Length
      ensures (r, t) == Launch(w, Own(s.fds), argv, old(Handed(fdIn, fdOut)).input, old(Handed(fdIn, fdOut)).output, old(t))
      ensures events == old(events) + [Executed(argv, old(Handed(fdIn, fdOut)).input, old(Handed(fdIn, fdOut)).output, r)]
      ensures pids[..newCount] == Joined(old(pids[..count]), r)
      ensures |stuck| == |old(stuck)| + Leaks(Executed(argv, old(Handed(fdIn, fdOut)).input, old(Handed(fdIn, fdOut)).output, r))
      ensures newIn == if r.Started? then read else -1
      ensures r.Started? ==> Writers(s, -1) && At(fds, newIn) == Some(old(fds)[read])
    {
      hide Waitable, Writing, Split;
      var pid;
      pid, r := RunStage(argv, fdIn, fdOut, s, Pair(fdIn, fdOut) + {read});
      assert Pair(fdIn, fdOut) + {read} - Pair(fdIn, fdOut) == {read};
      newCount := Push(pids, count, pid, r);
      newIn := -1;
      if pid > 0 {
        newIn := read;
        assert Pair(newIn, -1) == {read};
      } else {
        SplitClosed(s.fds, fds, stuck, {read}, {read});
        WaitableCloses(s, t, fds, children, mine, events, {read});
        assert {read} - {read} == Pair(-1, -1);
        Close(read);
      }
    }

    /** OP_PIPE: makes the pipe and runs the stage in front of it. */
    method RunPipe(argv: seq<string>, fdIn: int, fdOut: int, pids: array<Pid>, count: nat, ghost s: Start)
      returns (newIn: int, newOut: int, newCount: nat, more: bool, ghost output: Option<Handle>, ghost r: Result)
      requires Holding(s, fdIn, fdOut) && count < pids.Length
      modifies this, pids
      ensures Leaving(s, newIn, newOut) && newCount <= pids.Length
      ensures more ==> Holding(s, newIn, newOut) && newOut == -1 && At(fds, newIn) == Some(PipeRead(old(t)))
      ensures output == if At(old(fds), fdOut).Some? then At(old(fds), fdOut) else Some(PipeWrite(old(t)))
      ensures if !w.ok(old(t)) then
                !more && events == old(events) && |stuck| == |old(stuck)| && pids[..newCount] == old(pids[..count])
              else
                && (r, t) == Launch(w, Own(s.fds), argv, At(old(fds), fdIn), output, old(t) + 1)
                && events == old(events) + [Executed(argv, At(old(fds), fdIn), output, r)]
                && |stuck| == |old(stuck)| + Leaks(Executed(argv, At(old(fds), fdIn), output, r))
                && pids[..newCount] == Joined(old(pids[..count]), r)
                && more == r.Started?
    {
      hide Waitable, Writing, Split;
      output := if At(fds, fdOut).Some? then At(fds, fdOut) else Some(PipeWrite(t));
      r := Failed;
      var read, write := MakePipe(fdIn, fdOut, s);
      if read == -1 {
        newIn, newOut, newCount, more := fdIn, fdOut, count, false;
      } else {
        newIn, newCount, r := RunPiped(argv, fdIn, write, read, pids, count, s);
        newOut, more := -1, newIn != -1;
      }
    }

    method StepPipe(argv: seq<string>, ghost segs: seq<Segment>, fdIn: int, fdOut: int, pids: array<Pid>, count: nat, ghost s: Start)
      returns (newIn: int, newOut: int, newCount: nat, more: bool, ghost rest: seq<Event>)
      requires Holding(s, fdIn, fdOut) && count < pids.Length
      modifies this, pids
      ensures Leaving(s, newIn, newOut) && newCount <= pids.Length
      ensures var due := EvalEnding(w, Own(s.fds), argv, PipeTo, segs, old(Handed(fdIn, fdOut)), old(pids[..count]));
              events + rest == old(events) + due && |stuck| + LeakCount(rest) == |old(stuck)| + LeakCount(due)
      ensures more ==> Holding(s, newIn, newOut) && newCount == count + 1 && argv != []
      ensures rest == if more then Eval(w, Own(s.fds), segs, Handed(newIn, newOut), pids[..newCount]) else AwaitAll(pids[..newCount])
    {
      hide Waitable, Writing, Split, EvalEnding, Eval, LeakCount;
      ghost var handed, group := Handed(fdIn, fdOut), pids[..count];
      ghost var output, r;
      newIn, newOut, newCount, more, output, r := RunPipe(argv, fdIn, fdOut, pids, count, s);
      if !w.ok(handed.t) {
        PipeFails(w, Own(s.fds), argv, segs, handed, group);
        rest := AwaitAll(group);
      } else {
        rest := if more then Eval(w, Own(s.fds), segs, Handed(newIn, newOut), pids[..newCount]) else AwaitAll(group);
        PipeAdds(w, Own(s.fds), argv, segs, handed, group, output, r, t, old(events), |old(stuck)|);
      }
    }

    /** OP_AND: runs the segment and waits for its whole pipeline. */
    method RunAnd(argv: seq<string>, fdIn: int, fdOut: int, pids: array<Pid>, count: nat, ghost s: Start)
      returns (lastStatus: Status, ghost r: Result, ghost u: nat)
      requires Holding(s, fdIn, fdOut) && count < pids.Length
      modifies this, pids
      ensures Holding(s, -1, -1) && MayWait(s)
      ensures (r, u) == Launch(w, Own(s.fds), argv, old(Handed(fdIn, fdOut)).input, old(Handed(fdIn, fdOut)).output, old(t))
      ensures var event, group := Executed(argv, old(Handed(fdIn, fdOut)).input, old(Handed(fdIn, fdOut)).output, r), Joined(old(pids[..count]), r);
              && events == old(events) + [event] + AwaitAll(group) && t == u + |group|
              && |stuck| == |old(stuck)| + Leaks(event)
              && lastStatus == LastStatus(w, group, r, w.junk(u), Exited(0), u)
    {
      hide Waitable, Writing, Split, LastStatus, AwaitAll;
      var pid, newCount;
      pid, newCount, r := RunAndRecord(argv, fdIn, fdOut, pids, count, s);
      u := t;
      lastStatus := WaitGroup(pids, newCount, pid, r, s);
    }

    method StepAnd(argv: seq<string>, ghost segs: seq<Segment>, fdIn: int, fdOut: int, pids: array<Pid>, count: nat, ghost s: Start)
      returns (more: bool, ghost rest: seq<Event>)
      requires Holding(s, fdIn, fdOut) && count < pids.Length
      modifies this, pids
      ensures Holding(s, -1, -1) && MayWait(s)
      ensures var due := EvalEnding(w, Own(s.fds), argv, AndThen, segs, old(Handed(fdIn, fdOut)), old(pids[..count]));
              events + rest == old(events) + due && |stuck| + LeakCount(rest) == |old(stuck)| + LeakCount(due)
      ensures rest == if more then Eval(w, Own(s.fds), segs, Handed(-1, -1), []) else []
    {
      hide Waitable, Writing, Split, EvalEnding, Eval, LeakCount, AwaitAll;
      ghost var handed, before := Handed(fdIn, fdOut), pids[..count];
      var lastStatus;
      ghost var r, u;
      lastStatus, r, u := RunAnd(argv, fdIn, fdOut, pids, count, s);
      more := !(lastStatus.Exited? && lastStatus.code != 0);
      rest := AfterAnd(w, Own(s.fds), segs, lastStatus, t);
      AndAdds(w, Own(s.fds), argv, segs, handed, before, r, u, lastStatus, old(events), |old(stuck)|);
    }

    /** OP_OUT and OP_IN with a file name: the segment goes on with the file in place. */
    method StepRedirect(redirect: Redirect, ghost segs: seq<Segment>, fdIn: int, fdOut: int, ghost pids: seq<Pid>, ghost s: Start)
      returns (newIn: int, newOut: int, more: bool, ghost rest: seq<Event>)
      requires Holding(s, fdIn, fdOut) && segs != []
      modifies this`t, this`fds
      ensures Leaving(s, newIn, newOut) && (more ==> Holding(s, newIn, newOut))
      ensures rest == Eval(w, Own(s.fds), Prepend([redirect], segs), old(Handed(fdIn, fdOut)), pids)
      ensures rest == if more then Eval(w, Own(s.fds), segs, Handed(newIn, newOut), pids) else AwaitAll(pids)
    {
      hide Waitable, Writing, Split;
      RedirectUnfolds(w, Own(s.fds), redirect, segs, Handed(fdIn, fdOut), pids);
      rest := Eval(w, Own(s.fds), Prepend([redirect], segs), Handed(fdIn, fdOut), pids);
      newIn, newOut := Reopen(redirect, fdIn, fdOut, s);
      WritingMayWait(s, t, fds, children, mine, events);
      more := (if redirect.Input? then newIn else newOut) != -1;
    }

    /** One operator is carried out: the calls made so far and those in `rest` make up `due`. */
    ghost predicate Acted(a: seq<Option<string>>, tokens: seq<string>, next: Walk, pids: seq<Pid>, more: bool, background: bool,
                          rest: seq<Event>, events0: seq<Event>, stuck0: nat, due: seq<Event>, s: Start)
      reads this
    {
      && events + rest == events0 + due && |stuck| + LeakCount(rest) == stuck0 + LeakCount(due)
      && |pids| == next.count
      && if more then
           && Walking(a, tokens, next) && Holding(s, next.fdIn, next.fdOut)
           && rest == Eval(w, Own(s.fds), Rest(a, tokens, next), Handed(next.fdIn, next.fdOut), pids)
         else
           Leaving(s, next.fdIn, next.fdOut) && rest == if background then [] else AwaitAll(pids)
    }

    method ActPipe(argv: seq<string>, end: nat, k: Walk, pids: array<Pid>,
                   ghost a: seq<Option<string>>, ghost tokens: seq<string>, ghost s: Start)
      returns (next: Walk, more: bool, ghost rest: seq<Event>)
      requires Scanned(a, tokens, k, Some(Pipe), end, argv) && Holding(s, k.fdIn, k.fdOut) && k.count < pids.Length
      modifies this, pids
      ensures next.count <= pids.Length && (more ==> next.curr > end)
      ensures Acted(a, tokens, next, pids[..next.count], more, false, rest, old(events), |old(stuck)|,
                    Eval(w, Own(s.fds), Found(Some(Pipe), argv, tokens, end), old(Handed(k.fdIn, k.fdOut)), old(pids[..k.count])), s)
    {
      hide Waitable, Writing, Split, EvalEnding, Eval, LeakCount, Found, Rest;
      FoundThen(w, Own(s.fds), Pipe, argv, tokens, end, Handed(k.fdIn, k.fdOut), pids[..k.count]);
      var newIn, newOut, count;
      newIn, newOut, count, more, rest := StepPipe(argv, Parse(tokens[end + 1..]), k.fdIn, k.fdOut, pids, k.count, s);
      next := Walk(end + 1, end + 1, newIn, newOut, count);
      if more {
        WalksOn(a, tokens, k, Some(Pipe), end, argv, next);
      }
    }

    method ActAnd(argv: seq<string>, end: nat, k: Walk, pids: array<Pid>,
                  ghost a: seq<Option<string>>, ghost tokens: seq<string>, ghost s: Start)
      returns (next: Walk, more: bool, ghost rest: seq<Event>)
      requires Scanned(a, tokens, k, Some(And), end, argv) && Holding(s, k.fdIn, k.fdOut) && k.count < pids.Length
      modifies this, pids
      ensures next.count <= pids.Length && (more ==> next.curr > end)
      ensures Acted(a, tokens, next, pids[..next.count], more, false, rest, old(events), |old(stuck)|,
                    Eval(w, Own(s.fds), Found(Some(And), argv, tokens, end), old(Handed(k.fdIn, k.fdOut)), old(pids[..k.count])), s)
    {
      hide Waitable, Writing, Split, EvalEnding, Eval, LeakCount, Found, Rest;
      FoundThen(w, Own(s.fds), And, argv, tokens, end, Handed(k.fdIn, k.fdOut), pids[..k.count]);
      more, rest := StepAnd(argv, Parse(tokens[end + 1..]), k.fdIn, k.fdOut, pids, k.count, s);
      next := Walk(end + 1, end + 1, -1, -1, 0);
      assert AwaitAll(pids[..0]) == [];
      WalksOn(a, tokens, k, Some(And), end, argv, next);
    }

    /** `file` is what stands behind the redirection. */
    method ActRedirect(file: Option<string>, op: Operator, end: nat, k: Walk, ghost argv: seq<string>,
                       ghost pids: seq<Pid>, ghost a: seq<Option<string>>, ghost tokens: seq<string>, ghost s: Start)
      returns (next: Walk, more: bool, ghost rest: seq<Event>)
      requires op == Out || op == In
      requires Scanned(a, tokens, k, Some(op), end, argv) && Holding(s, k.fdIn, k.fdOut) && |pids| == k.count && a[end + 1] == file
      modifies this`t, this`fds
      ensures next.count == k.count && (more ==> next.curr > end)
      ensures Acted(a, tokens, next, pids, more, false, rest, old(events), |old(stuck)|,
                    Eval(w, Own(s.fds), Found(Some(op), argv, tokens, end), old(Handed(k.fdIn, k.fdOut)), pids), s)
    {
      FoundRedirect(w, Own(s.fds), Some(op), argv, tokens, end, Handed(k.fdIn, k.fdOut), pids);
      if file.None? {
        return k, false, AwaitAll(pids);
      }
      ghost var segs := ParseFrom(false, argv, [], tokens[end + 2..]);
      WalksPast(a, tokens, k, Some(op), end, argv, Walk(k.cmd, end + 2, k.fdIn, k.fdOut, k.count));
      next, more, rest := GoOn(if op == Out then Output(file.value) else Input(file.value), k, end, segs, pids, a, tokens, s);
    }

    method GoOn(redirect: Redirect, k: Walk, end: nat, ghost segs: seq<Segment>,
                ghost pids: seq<Pid>, ghost a: seq<Option<string>>, ghost tokens: seq<string>, ghost s: Start)
      returns (next: Walk, more: bool, ghost rest: seq<Event>)
      requires Walking(a, tokens, k.(curr := end + 2)) && segs != [] && segs == Rest(a, tokens, k.(curr := end + 2))
      requires Holding(s, k.fdIn, k.fdOut) && |pids| == k.count
      modifies this`t, this`fds
      ensures next.count == k.count && next.curr == end + 2
      ensures Acted(a, tokens, next, pids, more, false, rest, old(events), |old(stuck)|,
                    Eval(w, Own(s.fds), Prepend([redirect], segs), old(Handed(k.fdIn, k.fdOut)), pids), s)
    {
      hide Waitable, Writing, Split, Eval, LeakCount, Ahead, CommandEnds, ParseFrom, BeforeNull;
      var newIn, newOut;
      newIn, newOut, more, rest := StepRedirect(redirect, segs, k.fdIn, k.fdOut, pids, s);
      next := k.(curr := end + 2, fdIn := newIn, fdOut := newOut);
    }

    method ActLast(argv: seq<string>, op: Option<Operator>, k: Walk, end: nat, pids: array<Pid>,
                   ghost a: seq<Option<string>>, ghost tokens: seq<string>, ghost s: Start)
      returns (next: Walk, ghost rest: seq<Event>)
      requires (op == None || op == Some(Background)) && end <= |tokens|
      requires Holding(s, k.fdIn, k.fdOut) && k.count < pids.Length
      modifies this, pids
      ensures next.count <= pids.Length
      ensures Acted(a, tokens, next, pids[..next.count], false, op.Some?, rest, old(events), |old(stuck)|,
                    Eval(w, Own(s.fds), Found(op, argv, tokens, end), old(Handed(k.fdIn, k.fdOut)), old(pids[..k.count])), s)
    {
      hide Waitable, Writing, Split, EvalEnding, Eval, LeakCount, Found, Rest;
      FoundLast(w, Own(s.fds), op, argv, tokens, end, Handed(k.fdIn, k.fdOut), pids[..k.count]);
      var count;
      count, rest := StepLast(argv, op, k.fdIn, k.fdOut, pids, k.count, s);
      next := Walk(k.cmd, end, -1, -1, count);
    }

    /** One turn of the loop: finds the next operator and carries it out. */
    method Step(args: array<Option<string>>, k: Walk, pids: array<Pid>, ghost tokens: seq<string>, ghost s: Start)
      returns (next: Walk, more: bool, background: bool, ghost rest: seq<Event>)
      requires Walking(args[..], tokens, k) && (forall i | 0 <= i < |tokens| :: tokens[i] != [])
      requires Holding(s, k.fdIn, k.fdOut) && k.count < pids.Length
      requires if k.curr == 0 then k.cmd == 0 else Front(args[..], tokens, k.curr - 1)
      modifies this, args, pids
      ensures next.count <= pids.Length && (more ==> next.curr > k.curr && Front(args[..], tokens, next.curr - 1))
      ensures Front(args[..], tokens, args.Length - 1)
      ensures Acted(args[..], tokens, next, pids[..next.count], more, background, rest, old(events), |old(stuck)|,
                    Eval(w, Own(s.fds), Rest(old(args[..]), tokens, k), old(Handed(k.fdIn, k.fdOut)), old(pids[..k.count])), s)
    {
      hide Waitable, Writing, Split, Eval, LeakCount, Found, Rest, AwaitAll, Front, Ahead, CommandEnds, Scanned, Looked, BeforeNull;
      WalkingBounds(args[..], tokens, k);
      ghost var group := pids[..k.count];
      var op, end := Scan(args, k, tokens);
      ghost var a := args[..];
      LookedReady(old(args[..]), a, k, tokens, op, end);
      LookedFront(old(args[..]), a, k, tokens, op, end);
      var argv := ReadArgv(args, k.cmd);
      assert a[k.cmd..] == args[k.cmd..];
      more, background := false, false;
      match op {
        case Some(Pipe) => next, more, rest := ActPipe(argv, end, k, pids, a, tokens, s);
        case Some(And) => next, more, rest := ActAnd(argv, end, k, pids, a, tokens, s);
        case Some(Out) => next, more, rest := ActRedirect(args[end + 1], Out, end, k, argv, group, a, tokens, s);
        case Some(In) => next, more, rest := ActRedirect(args[end + 1], In, end, k, argv, group, a, tokens, s);
        case _ =>
          next, rest := ActLast(argv, op, k, end, pids, a, tokens, s);
          background := op.Some?;
      }
      assert args[..] == a;
      FrontLater(a, tokens, end, args.Length - 1);
      if more {
        WalkingBounds(a, tokens, next);
        FrontLater(a, tokens, end, next.curr - 1);
      }
    }

    /** The `goto` loop: turn after turn until nothing is left to read. */
    method WalkLine(args: array<Option<string>>, pids: array<Pid>, ghost tokens: seq<string>, ghost s: Start, ghost due: seq<Event>)
      returns (k: Walk, background: bool, ghost rest: seq<Event>)
      requires |tokens| < 2 * pids.Length && forall i | 0 <= i < |tokens| :: tokens[i] != []
      requires Acted(args[..], tokens, Walk(0, 0, -1, -1, 0), [], true, false, due, events, 0, due, s)
      modifies this, args, pids
      ensures k.count <= pids.Length
      ensures Acted(args[..], tokens, k, pids[..k.count], false, background, rest, old(events), 0, due, s)
      ensures args.Length > 0 && Front(args[..], tokens, args.Length - 1)
    {
      hide Waitable, Writing, Split, Eval, LeakCount, Rest, AwaitAll, Front;
      ghost var events0 := events;
      k, rest, background := Walk(0, 0, -1, -1, 0), due, false;
      var more := true;
      while more
        invariant k.count <= pids.Length && args.Length > 0
        invariant if !more then Front(args[..], tokens, args.Length - 1) else if k.curr == 0 then k.cmd == 0 else Front(args[..], tokens, k.curr - 1)
        invariant Acted(args[..], tokens, k, pids[..k.count], more, background, rest, events0, 0, due, s)
        decreases if more then |tokens| + 1 - k.curr else 0
      {
        k, more, background, rest := Step(args, k, pids, tokens, s);
      }
    }

    /** `error_exit`: waits in the foreground and closes what the walk still carried. */
    method FinishLine(k: Walk, background: bool, pids: array<Pid>, ghost s: Start)
      requires k.count <= pids.Length && Leaving(s, k.fdIn, k.fdOut)
      modifies this`t, this`events, this`fds
      ensures Leaving(s, -1, -1)
      ensures events == old(events) + if background then [] else AwaitAll(pids[..k.count])
    {
      hide Waitable, Writing, Split;
      if !background {
        WaitAll(pids, k.count, s);
      }
      Finishes(s, t, fds, stuck, children, mine, events, k.fdIn, k.fdOut);
      CloseCarried(k.fdIn, k.fdOut);
    }

    /** The walk and its end, for a line whose calls are to be `calls`. */
    method RunLine(args: array<Option<string>>, ghost tokens: seq<string>, ghost s: Start, ghost calls: seq<Event>)
      requires |tokens| <= 2047 && forall i | 0 <= i < |tokens| :: tokens[i] != []
      requires Acted(args[..], tokens, Walk(0, 0, -1, -1, 0), [], true, false, calls, events, 0, calls, s)
      modifies this, args
      ensures Leaving(s, -1, -1) && events == old(events) + calls && |stuck| == LeakCount(calls)
      ensures args.Length > 0 && Front(args[..], tokens, args.Length - 1)
    {
      hide Waitable, Writing, Split, Front;
      var pids := new Pid[1024];
      var k, background;
      ghost var rest;
      k, background, rest := WalkLine(args, pids, tokens, s, calls);
      AwaitingLeaksNothing(pids[..k.count]);
      FinishLine(k, background, pids, s);
    }

    /** `is_executable`: the destructive walk makes exactly the calls the evaluator gives for
        the parsed line. Descriptors 0 and 1 and all others stay on their open files, and the
        table grows by exactly the descriptors the evaluator says are leaked. The new children
        are exactly the processes these calls have started. */
    method IsExecutable(args: array<Option<string>>, ghost tokens: seq<string>) returns (ghost calls: seq<Event>)
      requires NullTerminated(args[..], tokens) && forall i | 0 <= i < |tokens| :: tokens[i] != []
      requires |tokens| <= 2047  // then `pids[1024]` cannot overflow
      requires 0 in fds && 1 in fds && IdsBelow(fds, t) && ChildrenBelow(children, t)
      modifies this, args
      ensures calls == EvalLine(w, Own(old(fds)), tokens, old(t))
      ensures events == old(events) + calls
      ensures forall fd | fd in old(fds) :: fd in fds && fds[fd] == old(fds)[fd]
      ensures |fds| == |old(fds)| + LeakCount(calls)
      ensures LeakCount(calls) == 0 <==> fds == old(fds)
      ensures old(t) <= t && IdsBelow(fds, t) && ChildrenBelow(children, t)
      ensures old(children) <= children && Settled(calls, old(t), t, fds, old(children), children[|old(children)|..])
      ensures None in args[..] && BeforeNull(args[..]) == Parse(tokens)[0].argv
    {
      stuck, mine := [], [];
      ghost var s := Start(t, fds, children, events);
      calls := EvalLine(w, Own(fds), tokens, t);
      StartsWalking(args[..], tokens);
      assert s.events[|s.events|..] == [];
      RunLine(args, tokens, s, calls);
      LineLeaves(s, t, fds, stuck, children, mine, calls);
      assert args[0..] == args[..];
      assert args[..][|BeforeNull(args[..])|] == None;
    }

    /** One turn of `main`'s loop on a line that `fgets` read into `line[MAXLINE]`. The token
        strings it frees are all for a builtin, and else the words of the line's first segment:
        those behind the first NULL that `get_op_type` wrote are lost. */
    method ProcessLine(line: array<char>) returns (running: bool, freed: seq<string>)
      requires '\0' in line[..] && line.Length <= 255
      requires 0 in fds && 1 in fds && IdsBelow(fds, t) && ChildrenBelow(children, t)
      modifies this, line
      ensures running <==> !("exit" <= old(CString(line[..])))
      ensures var tokens := old(Tokens(CString(line[..])));
              if !running || tokens == [] then
                events == old(events) && fds == old(fds) && children == old(children) && t == old(t)
              else if tokens[0] in ["hostname", "cd", "pwd"] then
                && events == old(events) + [Executed(tokens, None, None, Builtin(old(fds)[0], old(fds)[1]))]
                && fds == old(fds) && children == old(children) && t == old(t)
              else
                events == old(events) + EvalLine(w, Own(old(fds)), tokens, old(t))
      ensures forall fd | fd in old(fds) :: fd in fds && fds[fd] == old(fds)[fd]
      ensures fds == old(fds) || (running && CanLeak(Parse(old(Tokens(CString(line[..])))), false))
      ensures IdsBelow(fds, t) && ChildrenBelow(children, t)
      ensures var tokens := old(Tokens(CString(line[..])));
              freed == if !running || tokens == [] then [] else if tokens[0] in ["hostname", "cd", "pwd"] then tokens else Parse(tokens)[0].argv
    {
      freed := [];
      ghost var text := CString(line[..]);
      ghost var tokens := Tokens(text);
      CStringEnds(line[..]);
      running := !(line.Length >= 4 && line[..4] == "exit");
      assert "exit" <= text <==> !running by {
        if line.Length >= 4 && line[..4] == "exit" {
          assert line[0] == 'e' && line[1] == 'x' && line[2] == 'i' && line[3] == 't';
        }
      }
      if !running {
        return;
      }
      var arglist := CommandParse(line);
      if arglist == null {
        return;
      }
      TokenBound(text);
      TokensAreWords(text);
      var builtin := CheckBuiltin(arglist[0].value);
      if builtin {
        assert arglist[0..] == arglist[..];
        BeforeNullIs(arglist[..], tokens);
        var argv := ReadArgv(arglist, 0);
        events := events + [Executed(argv, None, None, Builtin(fds[0], fds[1]))];
      } else {
        LeakFreeExactly(Own(fds), tokens, t);
        ghost var calls := IsExecutable(arglist, tokens);
      }
      freed := CommandFreeList(arglist);
    }
  }
}
