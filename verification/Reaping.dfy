/** Who collects the mini-shell's children: the `waitpid` calls of a line being run
    (lab/isexecutable.c) and the SIGCHLD handler (lab/child_handler.c, lab/main.c), which can
    interrupt the shell between any two steps. A state machine over all interleavings. */
module Reaping {
  import opened Options
  import opened CommandLine
  import opened Evaluator

  datatype Proc = Running | Zombie(status: Status)

  /** An entry of the kernel's child table; serial numbers tell apart all children ever started. */
  datatype Child = Child(serial: nat, proc: Proc)

  datatype Collector = Handler | Waitpid

  /** Where the handler is: not running, in its loop, or on its way out after a `waitpid` that
      found nothing. SIGCHLD is blocked until it has returned. */
  datatype HandlerAt = Away | Draining | LeavingLoop

  /** Where the shell is: at the prompt, in front of the segments with the given endings, in
      the wait loop of `&&`, or in the closing wait loop. */
  datatype Phase =
    | Prompt
    | Stage(endings: seq<Ending>)
    | AndWait(i: nat, forked: bool, status: Status, last: Status, endings: seq<Ending>)
    | FinalWait(i: nat)

  /** `pids` is the shell's array of process ids. SIGCHLD is not queued: `pending` is one bit.
      The last six fields are history: the number of children started, how each terminated
      child ended, who collected whom, the children of the line, the serials behind `pids`,
      and what the current `&&` loop found in its uninitialised `status`. */
  datatype State = State(
    table: map<Pid, Child>,
    pending: bool,
    handler: HandlerAt,
    phase: Phase,
    pids: seq<Pid>,
    started: nat,
    exits: map<nat, Status>,
    reaped: seq<(nat, Collector)>,
    line: set<nat>,
    group: seq<nat>,
    junk: Status)

  datatype Step =
    | Exit(pid: Pid, status: Status)          // a child terminates
    | EnterHandler
    | HandlerReap(pid: Pid)                   // waitpid(-1, NULL, WNOHANG) finds a zombie
    | FindNone                                // it finds none, or no child at all
    | LeaveHandler
    | StartLine(endings: seq<Ending>)
    | Abort                                   // a syntax error, or a failing pipe() or open()
    | Execute(child: Option<Pid>, junk: Status) // execute() starts a child, or does not
    | Wait                                    // waitpid on the next listed process
    | Decide                                  // the end of the `&&` loop
    | Return                                  // the end of the closing loop

  predicate NoZombies(table: map<Pid, Child>) {
    forall p | p in table :: table[p].proc == Running
  }

  predicate ShellRuns(s: State) {
    s.handler == Away
  }

  /** The entry the wait loops look at next. */
  function NextIndex(s: State): Option<nat> {
    match s.phase
    case AndWait(i, _, _, _, _) => if i < |s.pids| then Some(i) else None
    case FinalWait(i) => if i < |s.pids| then Some(i) else None
    case _ => None
  }

  predicate Enabled(s: State, step: Step) {
    match step
    case Exit(p, _) => p in s.table && s.table[p].proc == Running
    case EnterHandler => s.pending && s.handler == Away
    case HandlerReap(p) => s.handler == Draining && p in s.table && s.table[p].proc.Zombie?
    case FindNone => s.handler == Draining && NoZombies(s.table)
    case LeaveHandler => s.handler == LeavingLoop
    case StartLine(endings) => ShellRuns(s) && s.phase == Prompt && Shaped(endings)
    case Abort => ShellRuns(s) && s.phase.Stage?
    case Execute(child, _) =>
      && ShellRuns(s) && s.phase.Stage? && s.phase.endings != [] && s.phase.endings[0] != NoFile
      && (child.Some? ==> child.value !in s.table && child.value !in s.pids)
    case Wait =>
      && ShellRuns(s) && NextIndex(s).Some?
      && (s.pids[NextIndex(s).value] in s.table ==> s.table[s.pids[NextIndex(s).value]].proc.Zombie?)
    case Decide => ShellRuns(s) && s.phase.AndWait? && s.phase.i == |s.pids|
    case Return => ShellRuns(s) && s.phase.FinalWait? && s.phase.i == |s.pids|
  }

  function Reap(s: State, p: Pid, who: Collector): State
    requires p in s.table
  {
    s.(table := s.table - {p}, reaped := s.reaped + [(s.table[p].serial, who)])
  }

  /** The state after a segment's `execute` call, before the shell goes on. */
  function Spawn(s: State, child: Option<Pid>): State {
    match child
    case None => s
    case Some(p) => s.(table := s.table[p := Child(s.started, Running)], pids := s.pids + [p], started := s.started + 1,
                       line := s.line + {s.started}, group := s.group + [s.started])
  }

  /** One `waitpid(pids[i], &status, 0)`: the status if there is a zombie, ECHILD if the
      handler has already collected the process. */
  function Collect(s: State, i: nat): (State, Option<Status>)
    requires i < |s.pids|
  {
    var p := s.pids[i];
    if p in s.table && s.table[p].proc.Zombie? then (Reap(s, p, Waitpid), Some(s.table[p].proc.status)) else (s, None)
  }

  function Apply(s: State, step: Step): State
    requires Enabled(s, step)
  {
    match step
    case Exit(p, status) =>
      s.(table := s.table[p := s.table[p].(proc := Zombie(status))], pending := true, exits := s.exits[s.table[p].serial := status])
    case EnterHandler => s.(pending := false, handler := Draining)
    case HandlerReap(p) => Reap(s, p, Handler)
    case FindNone => s.(handler := LeavingLoop)
    case LeaveHandler => s.(handler := Away)
    case StartLine(endings) => s.(phase := Stage(endings), pids := [], line := {}, group := [])
    case Abort => s.(phase := FinalWait(0))
    case Execute(child, junk) =>
      var next := Spawn(s, child);
      var rest := s.phase.endings[1..];
      (match s.phase.endings[0]
       case PipeTo => next.(phase := if child.Some? then Stage(rest) else FinalWait(0))
       case AndThen => next.(phase := AndWait(0, child.Some?, junk, Exited(0), rest), junk := junk)
       case Ampersand => next.(phase := Prompt)
       case _ => next.(phase := FinalWait(0)))
    case Wait =>
      var i := NextIndex(s).value;
      var (next, got) := Collect(s, i);
      if s.phase.AndWait? then
        var forked := s.phase.forked;
        var now := got.Or(s.phase.status);
        var last := if forked && s.pids[i] == s.pids[|s.pids| - 1] then now else s.phase.last;
        next.(phase := AndWait(i + 1, forked, now, last, s.phase.endings))
      else next.(phase := FinalWait(i + 1))
    case Decide =>
      s.(pids := [], group := [], phase := if Fails(s.phase.last) then FinalWait(0) else Stage(s.phase.endings))
    case Return => s.(phase := Prompt)
  }

  predicate Init(s: State) {
    s == State(map[], false, Away, Prompt, [], 0, map[], [], {}, [], Exited(0))
  }

  ghost predicate Next(s: State, t: State) {
    exists step :: Enabled(s, step) && t == Apply(s, step)
  }

  ghost predicate IsRun(run: seq<State>) {
    && run != [] && Init(run[0])
    && forall i | 0 <= i < |run| - 1 :: Next(run[i], run[i + 1])
  }

  // ----- The invariant -----

  predicate IsReaped(log: seq<(nat, Collector)>, n: nat) {
    exists i | 0 <= i < |log| :: log[i].0 == n
  }

  predicate ReapedBy(log: seq<(nat, Collector)>, n: nat, who: Collector) {
    exists i | 0 <= i < |log| :: log[i] == (n, who)
  }

  predicate IsListed(table: map<Pid, Child>, n: nat) {
    exists p | p in table :: table[p].serial == n
  }

  /** Every child started is in the table once or has been collected once, not both. */
  predicate Accounted(table: map<Pid, Child>, log: seq<(nat, Collector)>, started: nat) {
    && (forall p | p in table :: table[p].serial < started && !IsReaped(log, table[p].serial))
    && (forall p, q | p in table && q in table && table[p].serial == table[q].serial :: p == q)
    && (forall i | 0 <= i < |log| :: log[i].0 < started)
    && (forall i, j | 0 <= i < j < |log| :: log[i].0 != log[j].0)
    && (forall n: nat | n < started :: IsReaped(log, n) || IsListed(table, n))
  }

  /** `exits` records every terminated child, and a zombie holds its status. */
  predicate Recorded(table: map<Pid, Child>, log: seq<(nat, Collector)>, exits: map<nat, Status>) {
    && (forall p | p in table && table[p].proc.Zombie? :: table[p].serial in exits && exits[table[p].serial] == table[p].proc.status)
    && (forall i | 0 <= i < |log| :: log[i].0 in exits)
  }

  /** What is known of the process listed at j. */
  predicate EntryOk(s: State, j: nat)
    requires j < |s.pids| == |s.group|
  {
    if s.pids[j] in s.table then s.table[s.pids[j]].serial == s.group[j] else IsReaped(s.reaped, s.group[j])
  }

  /** The children behind `pids` are different ones. */
  predicate Serials(group: seq<nat>, started: nat) {
    && (forall j | 0 <= j < |group| :: group[j] < started)
    && forall i, j | 0 <= i < j < |group| :: group[i] != group[j]
  }

  predicate Group(s: State) {
    && |s.group| == |s.pids|
    && (forall i, j | 0 <= i < j < |s.pids| :: s.pids[i] != s.pids[j])
    && (forall j | 0 <= j < |s.group| :: s.group[j] in s.line)
    && (s.phase != Prompt ==> forall j | 0 <= j < |s.pids| :: EntryOk(s, j))
    && (s.phase != Prompt ==> forall n | n in s.line :: n < s.started && (n in s.group || IsReaped(s.reaped, n)))
  }

  /** The processes a wait loop has passed are collected. */
  predicate Passed(s: State) {
    match s.phase
    case AndWait(i, _, _, _, _) => i <= |s.pids| == |s.group| && forall j | 0 <= j < i :: IsReaped(s.reaped, s.group[j])
    case FinalWait(i) => i <= |s.pids| == |s.group| && forall j | 0 <= j < i :: IsReaped(s.reaped, s.group[j])
    case _ => true
  }

  /** How far the line's wait loop has come. */
  function WaitedTo(phase: Phase): nat {
    match phase
    case AndWait(i, _, _, _, _) => i
    case FinalWait(i) => i
    case _ => 0
  }

  /** What is not yet waited for, `waitpid` on it has not collected. */
  predicate Unwaited(s: State) {
    s.phase != Prompt ==> forall j | WaitedTo(s.phase) <= j < |s.group| :: !ReapedBy(s.reaped, s.group[j], Waitpid)
  }

  /** What a wait loop over `group` leaves in `status`: how the last of them that `waitpid`
      collected has ended, or what the variable held before. */
  function LastDelivered(log: seq<(nat, Collector)>, exits: map<nat, Status>, group: seq<nat>, junk: Status): Status {
    if group == [] then junk
    else
      var n := group[|group| - 1];
      if ReapedBy(log, n, Waitpid) && n in exits then exits[n] else LastDelivered(log, exits, group[..|group| - 1], junk)
  }

  lemma {:induction false} LastDeliveredIs(log: seq<(nat, Collector)>, exits: map<nat, Status>, group: seq<nat>, junk: Status)
    requires forall j | 0 <= j < |group| :: group[j] in exits
    ensures (forall j | 0 <= j < |group| :: !ReapedBy(log, group[j], Waitpid)) ==> LastDelivered(log, exits, group, junk) == junk
    ensures forall k | 0 <= k < |group| && ReapedBy(log, group[k], Waitpid)
                       && (forall j | k < j < |group| :: !ReapedBy(log, group[j], Waitpid)) ::
              LastDelivered(log, exits, group, junk) == exits[group[k]]
  {
    if group != [] {
      LastDeliveredIs(log, exits, group[..|group| - 1], junk);
    }
  }

  /** The `&&` loop's variables: `status` is the last status delivered so far, and `last` is it
      too once the last process has been waited for, if that one was forked for this segment. */
  predicate AndLoop(s: State) {
    s.phase.AndWait? ==>
      var (i, forked, status, last) := (s.phase.i, s.phase.forked, s.phase.status, s.phase.last);
      && i <= |s.pids| == |s.group|
      && status == LastDelivered(s.reaped, s.exits, s.group[..i], s.junk)
      && (forked ==> s.pids != [])
      && last == (if forked && i == |s.pids| then status else Exited(0))
  }

  /** No zombie is forgotten: the signal is pending, or the handler has a `waitpid` to make. */
  predicate Noticed(s: State) {
    NoZombies(s.table) || s.pending || s.handler == Draining
  }

  predicate Inv(s: State) {
    && Accounted(s.table, s.reaped, s.started) && Recorded(s.table, s.reaped, s.exits)
    && Serials(s.group, s.started) && Group(s) && Passed(s) && Unwaited(s) && AndLoop(s) && Noticed(s)
  }

  // ----- Preservation -----

  lemma LogGrows(log: seq<(nat, Collector)>, n0: nat, who: Collector)
    ensures forall n :: IsReaped(log + [(n0, who)], n) <==> IsReaped(log, n) || n == n0
    ensures forall n, c :: ReapedBy(log + [(n0, who)], n, c) <==> ReapedBy(log, n, c) || (n == n0 && c == who)
  {
    var more := log + [(n0, who)];
    assert more[|log|] == (n0, who);
    assert forall i | 0 <= i < |log| :: more[i] == log[i];
  }

  lemma ReapAccounts(table: map<Pid, Child>, log: seq<(nat, Collector)>, started: nat, p: Pid, who: Collector)
    requires Accounted(table, log, started) && p in table
    ensures Accounted(table - {p}, log + [(table[p].serial, who)], started)
  {
    var less, more := table - {p}, log + [(table[p].serial, who)];
    LogGrows(log, table[p].serial, who);
    assert forall i | 0 <= i < |log| :: IsReaped(log, log[i].0);
    forall n: nat | n < started
      ensures IsReaped(more, n) || IsListed(less, n)
    {
      if !IsReaped(more, n) {
        var q :| q in table && table[q].serial == n;
        assert q in less;
      }
    }
  }

  lemma ReapGroup(s: State, p: Pid, who: Collector)
    requires Group(s) && Passed(s) && p in s.table
    ensures Group(Reap(s, p, who)) && Passed(Reap(s, p, who))
  {
    var t := Reap(s, p, who);
    LogGrows(s.reaped, s.table[p].serial, who);
    if s.phase != Prompt {
      forall j | 0 <= j < |t.pids|
        ensures EntryOk(t, j)
      {
        assert EntryOk(s, j);
      }
    }
  }

  /** Setting an entry that is new, or keeps its serial number. */
  lemma SetAccounts(table: map<Pid, Child>, log: seq<(nat, Collector)>, started: nat, p: Pid, c: Child, after: nat)
    requires Accounted(table, log, started)
    requires if p in table then c.serial == table[p].serial && after == started else c.serial == started && after == started + 1
    ensures Accounted(table[p := c], log, after)
  {
    var more := table[p := c];
    assert forall i | 0 <= i < |log| :: IsReaped(log, log[i].0);
    forall n: nat | n < after
      ensures IsReaped(log, n) || IsListed(more, n)
    {
      if n == c.serial {
        assert more[p].serial == n;
      } else if !IsReaped(log, n) {
        var q :| q in table && table[q].serial == n;
        assert more[q].serial == n;
      }
    }
  }

  lemma ExitGroup(s: State, p: Pid, status: Status)
    requires Group(s) && Passed(s) && Enabled(s, Exit(p, status))
    ensures Group(Apply(s, Exit(p, status))) && Passed(Apply(s, Exit(p, status)))
  {
    var t := Apply(s, Exit(p, status));
    if s.phase != Prompt {
      forall j | 0 <= j < |t.pids|
        ensures EntryOk(t, j)
      {
        assert EntryOk(s, j);
      }
    }
  }

  /** The child that ends was not yet collected, so no recorded status changes. */
  lemma ExitRecords(s: State, p: Pid, status: Status)
    requires Accounted(s.table, s.reaped, s.started) && Recorded(s.table, s.reaped, s.exits) && Enabled(s, Exit(p, status))
    ensures var t := Apply(s, Exit(p, status)); Recorded(t.table, t.reaped, t.exits)
    ensures forall n | ReapedBy(s.reaped, n, Waitpid) :: n != s.table[p].serial
  {
    assert forall i | 0 <= i < |s.reaped| :: IsReaped(s.reaped, s.reaped[i].0);
    assert forall n | ReapedBy(s.reaped, n, Waitpid) :: IsReaped(s.reaped, n);
  }

  /** The statuses of collected children do not change. */
  lemma {:induction false} DeliveredFrame(log: seq<(nat, Collector)>, exits: map<nat, Status>,
                                          log2: seq<(nat, Collector)>, exits2: map<nat, Status>, group: seq<nat>, junk: Status)
    requires forall k | 0 <= k < |group| :: ReapedBy(log, group[k], Waitpid) <==> ReapedBy(log2, group[k], Waitpid)
    requires forall k | 0 <= k < |group| && ReapedBy(log, group[k], Waitpid) ::
               group[k] in exits && group[k] in exits2 && exits[group[k]] == exits2[group[k]]
    ensures LastDelivered(log2, exits2, group, junk) == LastDelivered(log, exits, group, junk)
  {
    if group != [] {
      DeliveredFrame(log, exits, log2, exits2, group[..|group| - 1], junk);
    }
  }

  lemma ReapedRecorded(s: State, n: nat)
    requires Recorded(s.table, s.reaped, s.exits) && ReapedBy(s.reaped, n, Waitpid)
    ensures n in s.exits && IsReaped(s.reaped, n)
  {
    var i :| 0 <= i < |s.reaped| && s.reaped[i] == (n, Waitpid);
    assert s.reaped[i].0 in s.exits;
  }

  lemma ExitLoop(s: State, p: Pid, status: Status)
    requires Inv(s) && Enabled(s, Exit(p, status))
    ensures AndLoop(Apply(s, Exit(p, status))) && Unwaited(Apply(s, Exit(p, status)))
  {
    var t := Apply(s, Exit(p, status));
    if s.phase.AndWait? {
      var group := s.group[..s.phase.i];
      forall k | 0 <= k < |group| && ReapedBy(s.reaped, group[k], Waitpid)
        ensures group[k] in s.exits && group[k] in t.exits && s.exits[group[k]] == t.exits[group[k]]
      {
        ReapedRecorded(s, group[k]);
        ExitRecords(s, p, status);
      }
      DeliveredFrame(s.reaped, s.exits, t.reaped, t.exits, group, s.junk);
    }
  }

  lemma ExitKeeps(s: State, p: Pid, status: Status)
    requires Inv(s) && Enabled(s, Exit(p, status))
    ensures Inv(Apply(s, Exit(p, status)))
  {
    SetAccounts(s.table, s.reaped, s.started, p, s.table[p].(proc := Zombie(status)), s.started);
    ExitGroup(s, p, status);
    ExitRecords(s, p, status);
    ExitLoop(s, p, status);
  }

  lemma HandlerLoop(s: State, p: Pid)
    requires Inv(s) && Enabled(s, HandlerReap(p))
    ensures AndLoop(Apply(s, HandlerReap(p))) && Unwaited(Apply(s, HandlerReap(p)))
  {
    var t := Apply(s, HandlerReap(p));
    LogGrows(s.reaped, s.table[p].serial, Handler);
    if s.phase.AndWait? {
      var group := s.group[..s.phase.i];
      forall k | 0 <= k < |group| && ReapedBy(s.reaped, group[k], Waitpid)
        ensures group[k] in s.exits
      {
        ReapedRecorded(s, group[k]);
      }
      DeliveredFrame(s.reaped, s.exits, t.reaped, t.exits, group, s.junk);
    }
  }

  lemma HandlerKeeps(s: State, p: Pid)
    requires Inv(s) && Enabled(s, HandlerReap(p))
    ensures Inv(Apply(s, HandlerReap(p)))
  {
    LogGrows(s.reaped, s.table[p].serial, Handler);
    ReapAccounts(s.table, s.reaped, s.started, p, Handler);
    ReapGroup(s, p, Handler);
    HandlerLoop(s, p);
  }

  lemma SpawnGroup(s: State, p: Pid)
    requires Group(s) && s.phase != Prompt && p !in s.table && p !in s.pids
    ensures Group(Spawn(s, Some(p)))
  {
    var t := Spawn(s, Some(p));
    forall j | 0 <= j < |t.pids|
      ensures EntryOk(t, j)
    {
      if j < |s.pids| {
        assert EntryOk(s, j);
      }
    }
  }

  /** The phase changes at the end of a segment, with nothing waited for yet. */
  lemma PhaseGroup(s: State, phase: Phase, junk: Status)
    requires Group(s) && s.phase != Prompt
    ensures Group(s.(phase := phase, junk := junk))
  {
    var t := s.(phase := phase, junk := junk);
    forall j | 0 <= j < |t.pids|
      ensures EntryOk(t, j)
    {
      assert EntryOk(s, j);
    }
  }

  lemma ExecuteLoop(s: State, child: Option<Pid>, junk: Status)
    requires Inv(s) && Enabled(s, Execute(child, junk))
    ensures var t := Apply(s, Execute(child, junk)); AndLoop(t) && Unwaited(t) && Passed(t)
  {
    assert !ReapedBy(s.reaped, s.started, Waitpid);
  }

  lemma ExecuteGroup(s: State, child: Option<Pid>, junk: Status)
    requires Group(s) && Enabled(s, Execute(child, junk))
    ensures Group(Apply(s, Execute(child, junk)))
  {
    var t, m := Apply(s, Execute(child, junk)), Spawn(s, child);
    if child.Some? {
      SpawnGroup(s, child.value);
    }
    assert t == m.(phase := t.phase, junk := t.junk);
    PhaseGroup(m, t.phase, t.junk);
  }

  lemma SpawnAccounts(s: State, child: Option<Pid>)
    requires Accounted(s.table, s.reaped, s.started) && Recorded(s.table, s.reaped, s.exits) && Noticed(s)
    requires child.Some? ==> child.value !in s.table
    ensures var m := Spawn(s, child); Accounted(m.table, m.reaped, m.started) && Recorded(m.table, m.reaped, m.exits) && Noticed(m)
  {
    if child.Some? {
      SetAccounts(s.table, s.reaped, s.started, child.value, Child(s.started, Running), s.started + 1);
    }
  }

  lemma ExecuteKeeps(s: State, child: Option<Pid>, junk: Status)
    requires Inv(s) && Enabled(s, Execute(child, junk))
    ensures Inv(Apply(s, Execute(child, junk)))
  {
    hide Accounted, Recorded, Group, AndLoop, Unwaited, Passed;
    var t, m := Apply(s, Execute(child, junk)), Spawn(s, child);
    SpawnAccounts(s, child);
    assert t == m.(phase := t.phase, junk := t.junk);
    ExecuteGroup(s, child, junk);
    ExecuteLoop(s, child, junk);
  }

  /** The state after the `waitpid` itself. */
  function Waited(s: State): State
    requires Enabled(s, Wait)
  {
    Collect(s, NextIndex(s).value).0
  }

  lemma WaitGroup(s: State)
    requires Group(s) && Passed(s) && Enabled(s, Wait)
    ensures Group(Waited(s)) && Passed(Waited(s)) && IsReaped(Waited(s).reaped, s.group[NextIndex(s).value])
  {
    var i := NextIndex(s).value;
    var p := s.pids[i];
    assert EntryOk(s, i);
    if p in s.table {
      LogGrows(s.reaped, s.table[p].serial, Waitpid);
      ReapGroup(s, p, Waitpid);
    }
  }

  lemma WaitMovesOn(s: State)
    requires Group(s) && Passed(s) && Enabled(s, Wait)
    ensures Group(Apply(s, Wait)) && Passed(Apply(s, Wait))
  {
    WaitGroup(s);
    var t, m := Apply(s, Wait), Waited(s);
    assert t == m.(phase := t.phase);
    PhaseGroup(m, t.phase, t.junk);
  }

  /** The process waited for is the one listed, and no other one is collected. */
  lemma WaitUnwaited(s: State)
    requires Inv(s) && Enabled(s, Wait)
    ensures Unwaited(Apply(s, Wait))
    ensures var t, i := Apply(s, Wait), NextIndex(s).value;
            && i < |s.group|
            && (ReapedBy(t.reaped, s.group[i], Waitpid) <==> s.pids[i] in s.table)
            && forall k | 0 <= k < i :: ReapedBy(t.reaped, s.group[k], Waitpid) <==> ReapedBy(s.reaped, s.group[k], Waitpid)
  {
    var i := NextIndex(s).value;
    var p := s.pids[i];
    assert EntryOk(s, i);
    if p in s.table {
      LogGrows(s.reaped, s.table[p].serial, Waitpid);
    }
  }

  /** It leaves what was delivered before as it was. */
  lemma WaitDelivered(s: State)
    requires Inv(s) && Enabled(s, Wait)
    ensures var t, i := Apply(s, Wait), NextIndex(s).value;
            i < |s.group|
            && LastDelivered(t.reaped, t.exits, s.group[..i], s.junk) == LastDelivered(s.reaped, s.exits, s.group[..i], s.junk)
  {
    WaitUnwaited(s);
    var i := NextIndex(s).value;
    forall k | 0 <= k < i && ReapedBy(s.reaped, s.group[k], Waitpid)
      ensures s.group[k] in s.exits
    {
      ReapedRecorded(s, s.group[k]);
    }
    DeliveredFrame(s.reaped, s.exits, Apply(s, Wait).reaped, s.exits, s.group[..i], s.junk);
  }

  lemma DeliveredNext(log: seq<(nat, Collector)>, exits: map<nat, Status>, group: seq<nat>, i: nat, junk: Status)
    requires i < |group|
    ensures LastDelivered(log, exits, group[..i + 1], junk) ==
            if ReapedBy(log, group[i], Waitpid) && group[i] in exits then exits[group[i]]
            else LastDelivered(log, exits, group[..i], junk)
  {
    assert group[..i + 1][..i] == group[..i];
  }

  /** The status the wait leaves in the variable. */
  lemma WaitStatus(s: State)
    requires Inv(s) && Enabled(s, Wait) && s.phase.AndWait?
    ensures var t, i := Apply(s, Wait), s.phase.i;
            i < |s.group| && t.phase.AndWait? && t.phase.status == LastDelivered(t.reaped, t.exits, s.group[..i + 1], s.junk)
  {
    var t, i := Apply(s, Wait), s.phase.i;
    WaitUnwaited(s);
    WaitDelivered(s);
    assert EntryOk(s, i);
    DeliveredNext(t.reaped, t.exits, s.group, i, s.junk);
  }

  lemma WaitLoop(s: State)
    requires Inv(s) && Enabled(s, Wait)
    ensures AndLoop(Apply(s, Wait))
  {
    if s.phase.AndWait? {
      WaitStatus(s);
    }
  }

  lemma WaitAccounts(s: State)
    requires Accounted(s.table, s.reaped, s.started) && Recorded(s.table, s.reaped, s.exits) && Enabled(s, Wait)
    ensures var t := Apply(s, Wait); Accounted(t.table, t.reaped, t.started) && Recorded(t.table, t.reaped, t.exits)
  {
    var p := s.pids[NextIndex(s).value];
    if p in s.table {
      ReapAccounts(s.table, s.reaped, s.started, p, Waitpid);
    }
  }

  lemma WaitKeeps(s: State)
    requires Inv(s) && Enabled(s, Wait)
    ensures Inv(Apply(s, Wait))
  {
    WaitAccounts(s);
    WaitMovesOn(s);
    WaitUnwaited(s);
    WaitLoop(s);
  }

  lemma StepKeeps(s: State, step: Step)
    requires Inv(s) && Enabled(s, step)
    ensures Inv(Apply(s, step))
  {
    match step
    case Exit(p, status) => ExitKeeps(s, p, status);
    case HandlerReap(p) => HandlerKeeps(s, p);
    case Execute(child, junk) => ExecuteKeeps(s, child, junk);
    case Wait => WaitKeeps(s);
    case Abort => PhaseGroup(s, FinalWait(0), s.junk);
    case Decide => DecideKeeps(s);
    case _ => QuietKeeps(s, step);
  }

  lemma DecideKeeps(s: State)
    requires Inv(s) && Enabled(s, Decide)
    ensures Inv(Apply(s, Decide))
  {
    assert forall j | 0 <= j < |s.group| :: IsReaped(s.reaped, s.group[j]);
  }

  lemma QuietKeeps(s: State, step: Step)
    requires Inv(s) && Enabled(s, step)
    requires step.EnterHandler? || step.FindNone? || step.LeaveHandler? || step.StartLine? || step.Return?
    ensures Inv(Apply(s, step))
  {
    var t := Apply(s, step);
    if s.phase != Prompt && t.phase != Prompt {
      forall j | 0 <= j < |t.pids|
        ensures EntryOk(t, j)
      {
        assert EntryOk(s, j);
      }
    }
  }

  lemma {:induction false} Invariant(run: seq<State>, i: nat)
    requires IsRun(run) && i < |run|
    ensures Inv(run[i])
  {
    if i > 0 {
      Invariant(run, i - 1);
      assert Next(run[i - 1], run[i]);
      var step :| Enabled(run[i - 1], step) && run[i] == Apply(run[i - 1], step);
      StepKeeps(run[i - 1], step);
    }
  }

  // ----- The properties -----

  /** No zombie is lost although SIGCHLD is not queued: in every reachable state with a zombie,
      the signal is pending or the handler still has a waitpid to make that will find it. */
  lemma NoLostZombie(run: seq<State>, i: nat)
    requires IsRun(run) && i < |run|
    ensures var s := run[i]; NoZombies(s.table) || s.pending || (s.handler == Draining && !Enabled(s, FindNone))
  {
    Invariant(run, i);
  }

  /** Every child ever started is in the table under exactly one id and not collected, or gone
      from the table and collected exactly once. */
  lemma CollectedOnce(run: seq<State>, i: nat, n: nat)
    requires IsRun(run) && i < |run| && n < run[i].started
    ensures var s := run[i];
            && (IsListed(s.table, n) <==> !IsReaped(s.reaped, n))
            && (forall p, q | p in s.table && q in s.table && s.table[p].serial == n && s.table[q].serial == n :: p == q)
            && (forall j, k | 0 <= j < |s.reaped| && 0 <= k < |s.reaped| && s.reaped[j].0 == n && s.reaped[k].0 == n :: j == k)
  {
    Invariant(run, i);
  }

  lemma LineOf(s: State, step: Step)
    requires Enabled(s, step) && !step.StartLine?
    ensures var t := Apply(s, step);
            var spawned := if step.Execute? then Spawn(s, step.child) else s;
            t.started == spawned.started && t.line == spawned.line
  {
    if step.Wait? {
      var (next, got) := Collect(s, NextIndex(s).value);
    }
  }

  lemma LineGrows(s: State, t: State)
    requires Next(s, t) && t.phase != Prompt
    ensures s.started <= t.started && (s.phase == Prompt ==> s.started == t.started)
    ensures s.phase != Prompt ==> forall n | n in s.line || s.started <= n < t.started :: n in t.line
  {
    hide Collect, Reap;
    var step :| Enabled(s, step) && t == Apply(s, step);
    if !step.StartLine? {
      LineOf(s, step);
    }
  }

  lemma {:induction false} LineIs(run: seq<State>, from: nat, i: nat)
    requires IsRun(run) && from < i < |run| && run[from].phase == Prompt
    requires forall k | from < k <= i :: run[k].phase != Prompt
    ensures run[from].started <= run[i].started
    ensures forall n | run[from].started <= n < run[i].started :: n in run[i].line
  {
    hide Next;
    LineGrows(run[i - 1], run[i]);
    if i > from + 1 {
      LineIs(run, from, i - 1);
    }
  }

  lemma LineReturns(s: State, t: State)
    requires Next(s, t) && s.phase.FinalWait? && t.phase == Prompt
    ensures s.phase.i == |s.pids| && t.started == s.started
  {
    var step :| Enabled(s, step) && t == Apply(s, step);
    assert step == Return;
  }

  /** When a foreground line returns, every child started since it left the prompt has been
      collected, also those of the pipelines in front of an `&&`. */
  lemma ForegroundReturns(run: seq<State>, from: nat, i: nat, n: nat)
    requires IsRun(run) && from < i && i + 1 < |run| && run[from].phase == Prompt
    requires forall k | from < k <= i :: run[k].phase != Prompt
    requires run[i].phase.FinalWait? && run[i + 1].phase == Prompt
    requires run[from].started <= n < run[i + 1].started
    ensures IsReaped(run[i].reaped, n)
  {
    hide Next;
    Invariant(run, i);
    LineIs(run, from, i);
    var s := run[i];
    LineReturns(s, run[i + 1]);
    if n in s.group {
      var j :| 0 <= j < |s.group| && s.group[j] == n;
      assert IsReaped(s.reaped, s.group[j]);
    }
  }

  /** The status an `&&` acts on: none if its last stage started no process; else how the last
      process of the pipeline that `waitpid` collected has ended, or the uninitialised one. */
  function Observed(s: State): Status
    requires s.phase.AndWait?
  {
    if s.phase.forked then LastDelivered(s.reaped, s.exits, s.group, s.junk) else Exited(0)
  }

  lemma LoopEnds(s: State, t: State)
    requires Next(s, t) && s.phase.AndWait? && !t.phase.AndWait?
    ensures s.phase.i == |s.pids| && (t.phase.Stage? <==> !Fails(s.phase.last))
  {
    var step :| Enabled(s, step) && t == Apply(s, step);
    assert step == Decide;
  }

  /** Every process in front of an `&&` has terminated when the loop decides, and the segment
      behind it is started exactly when the observed status is not a non-zero exit. */
  lemma AndDecides(run: seq<State>, i: nat)
    requires IsRun(run) && i + 1 < |run|
    requires run[i].phase.AndWait? && !run[i + 1].phase.AndWait?
    ensures var s := run[i];
            && (forall j | 0 <= j < |s.group| :: IsReaped(s.reaped, s.group[j]) && s.group[j] in s.exits)
            && (s.phase.forked ==> s.group != [])
            && (run[i + 1].phase.Stage? <==> Observed(s).Signaled? || Observed(s) == Exited(0))
  {
    hide Next;
    Invariant(run, i);
    var s := run[i];
    LoopEnds(s, run[i + 1]);
    assert s.group[..|s.group|] == s.group;
    forall j | 0 <= j < |s.group|
      ensures IsReaped(s.reaped, s.group[j]) && s.group[j] in s.exits
    {
      var k :| 0 <= k < |s.reaped| && s.reaped[k].0 == s.group[j];
    }
  }

  /** So the decision is the right one for the last stage's own status exactly when `waitpid`
      collected it, or how the last process in front of it that `waitpid` collected has ended,
      or else the uninitialised status, happens to agree. */
  lemma AndIsRightExactly(run: seq<State>, i: nat)
    requires IsRun(run) && i + 1 < |run|
    requires run[i].phase.AndWait? && run[i].phase.forked && !run[i + 1].phase.AndWait?
    ensures var s := run[i];
            && s.group != [] && s.group[|s.group| - 1] in s.exits
            && var last := |s.group| - 1;
               var own := s.exits[s.group[last]];
               var before := LastDelivered(s.reaped, s.exits, s.group[..last], s.junk);
               (run[i + 1].phase.Stage? <==> own.Signaled? || own.code == 0) <==>
               || ReapedBy(s.reaped, s.group[last], Waitpid)
               || (before.Signaled? || before.code == 0 <==> own.Signaled? || own.code == 0)
  {
    AndDecides(run, i);
  }

  lemma Took(s: State, step: Step, t: State)
    requires Enabled(s, step) && t == Apply(s, step)
    ensures Next(s, t)
  {
  }

  /** `false && next`, with the handler faster than the shell: the states, one by one. */
  function Stolen(k: nat): State {
    var s0 := State(map[], false, Away, Prompt, [], 0, map[], [], {}, [], Exited(0));
    if k == 0 then s0
    else if k == 1 then s0.(phase := Stage([AndThen, Finish]))
    else
      var s2 := s0.(table := map[1 := Child(0, Running)], phase := AndWait(0, true, Exited(0), Exited(0), [Finish]),
                    pids := [1], started := 1, line := {0}, group := [0]);
      var dead := s2.(exits := map[0 := Exited(1)]);
      if k == 2 then s2
      else if k == 3 then dead.(table := map[1 := Child(0, Zombie(Exited(1)))], pending := true)
      else if k == 4 then dead.(table := map[1 := Child(0, Zombie(Exited(1)))], handler := Draining)
      else
        var gone := dead.(table := map[], reaped := [(0, Handler)]);
        if k == 5 then gone.(handler := Draining)
        else if k == 6 then gone.(handler := LeavingLoop)
        else if k == 7 then gone
        else if k == 8 then gone.(phase := AndWait(1, true, Exited(0), Exited(0), [Finish]))
        else gone.(phase := Stage([Finish]), pids := [], group := [])
  }

  lemma StolenStarts()
    ensures forall k | 0 <= k < 3 :: Next(Stolen(k), Stolen(k + 1))
  {
    Took(Stolen(0), StartLine([AndThen, Finish]), Stolen(1));
    Took(Stolen(1), Execute(Some(1), Exited(0)), Stolen(2));
    Took(Stolen(2), Exit(1, Exited(1)), Stolen(3));
  }

  lemma StolenByHandler()
    ensures Next(Stolen(3), Stolen(4)) && Next(Stolen(4), Stolen(5))
  {
    Took(Stolen(3), EnterHandler, Stolen(4));
    assert Stolen(4).table - {1} == map[];
    Took(Stolen(4), HandlerReap(1), Stolen(5));
  }

  lemma StolenResumes()
    ensures Next(Stolen(5), Stolen(6)) && Next(Stolen(6), Stolen(7))
  {
    Took(Stolen(5), FindNone, Stolen(6));
    Took(Stolen(6), LeaveHandler, Stolen(7));
  }

  lemma StolenWait()
    ensures Next(Stolen(7), Stolen(8))
  {
    Took(Stolen(7), Wait, Stolen(8));
  }

  lemma StolenEnds()
    ensures Next(Stolen(8), Stolen(9))
  {
    Took(Stolen(8), Decide, Stolen(9));
  }

  /** The handler can win: a command that fails, collected by the handler before the `&&` loop
      asks for it, lets the next segment start. */
  lemma HandlerCanWin() returns (run: seq<State>)
    ensures IsRun(run) && |run| == 10
    ensures run[8].phase.AndWait? && run[8].group == [0] && run[8].exits == map[0 := Exited(1)] && run[9].phase == Stage([Finish])
  {
    run := seq(10, k requires 0 <= k < 10 => Stolen(k));
    StolenStarts();
    StolenByHandler();
    StolenResumes();
    StolenWait();
    StolenEnds();
    forall k | 0 <= k < |run| - 1
      ensures Next(run[k], run[k + 1])
    {
      assert Next(Stolen(k), Stolen(k + 1));
    }
  }

  lemma TableSize(s: State, step: Step)
    requires s.handler != Away && Enabled(s, step)
    ensures |Apply(s, step).table| == if step.HandlerReap? then |s.table| - 1 else |s.table|
  {
    var t := Apply(s, step);
    if step.HandlerReap? {
      assert s.table.Keys == t.table.Keys + {step.pid};
      assert |t.table.Keys| == |s.table.Keys| - 1;
    } else if step.Exit? {
      assert t.table.Keys == s.table.Keys;
      assert |t.table.Keys| == |s.table.Keys|;
    }
  }

  /** While the handler runs the table cannot grow, and each process it collects shrinks it, so
      its loop ends; and it leaves the loop exactly at a moment when no zombie is left. */
  lemma HandlerDrains(s: State, step: Step)
    requires s.handler != Away && Enabled(s, step)
    ensures |Apply(s, step).table| == if step.HandlerReap? then |s.table| - 1 else |s.table|
    ensures Apply(s, step).handler == if step == LeaveHandler then Away else if step == FindNone then LeavingLoop else s.handler
    ensures s.handler == Draining ==> ((exists p :: Enabled(s, HandlerReap(p))) <==> !Enabled(s, FindNone))
  {
    TableSize(s, step);
    if s.handler == Draining && !NoZombies(s.table) {
      var p :| p in s.table && s.table[p].proc != Running;
      assert Enabled(s, HandlerReap(p));
    }
  }

  // ----- The handler's code -----

  /** The machine as the code drives it: its state and, as history, the run that led there. */
  class Kernel {
    var state: State
    ghost var run: seq<State>

    ghost predicate Valid()
      reads this
    {
      IsRun(run) && run[|run| - 1] == state
    }

    constructor ()
      ensures Valid() && Init(state)
    {
      var s := State(map[], false, Away, Prompt, [], 0, map[], [], {}, [], Exited(0));
      state, run := s, [s];
    }

    method Advance(step: Step)
      requires Valid() && Enabled(state, step)
      modifies this
      ensures Valid() && state == Apply(old(state), step) && run == old(run) + [state]
    {
      Took(state, step, Apply(state, step));
      state := Apply(state, step);
      run := run + [state];
    }

    /** Some children terminate while the handler runs. */
    method Elapse(exits: seq<(Pid, Status)>)
      requires Valid() && state.handler != Away
      modifies this
      ensures Valid() && old(run) <= run
      ensures state.handler == old(state.handler) && |state.table| == |old(state.table)| && state.reaped == old(state.reaped)
      ensures state.phase == old(state.phase) && state.pids == old(state.pids)
    {
      for i := 0 to |exits|
        invariant Valid() && old(run) <= run
        invariant state.handler == old(state.handler) && |state.table| == |old(state.table)| && state.reaped == old(state.reaped)
        invariant state.phase == old(state.phase) && state.pids == old(state.pids)
      {
        var step := Exit(exits[i].0, exits[i].1);
        if exits[i].0 in state.table && state.table[exits[i].0].proc == Running {
          HandlerDrains(state, step);
          Advance(step);
        }
      }
    }

    /** `waitpid(-1, NULL, WNOHANG)`: the id of a collected zombie, 0 if no child has
        terminated, -1 (ECHILD) if there is no child. */
    method WaitNoHang() returns (pid: int)
      requires Valid() && state.handler == Draining
      modifies this
      ensures Valid() && old(run) <= run
      ensures state.phase == old(state.phase) && state.pids == old(state.pids)
      ensures if NoZombies(old(state.table)) then
                pid == (if old(state.table) == map[] then -1 else 0) && state == old(state).(handler := LeavingLoop)
              else
                && pid > 0 && pid in old(state.table) && state == Reap(old(state), pid, Handler)
                && |state.table| == |old(state.table)| - 1
    {
      if p :| p in state.table && state.table[p].proc != Running {
        HandlerDrains(state, HandlerReap(p));
        Advance(HandlerReap(p));
        pid := p;
      } else {
        pid := if state.table == map[] then -1 else 0;
        Advance(FindNone);
      }
    }

    /** `child_handler`: it ends, collects each process it takes from the table once, and the
        shell resumes where it was interrupted. It leaves no zombie behind but such as ended
        after its last `waitpid`, for which the signal is pending. `meanwhile(k)` is what
        terminates before its k-th `waitpid`, or before its return. */
    method ChildHandler(meanwhile: nat -> seq<(Pid, Status)>)
      requires Valid() && Enabled(state, EnterHandler)
      modifies this
      ensures Valid() && old(run) <= run
      ensures state.handler == Away && (NoZombies(state.table) || state.pending)
      ensures old(state.reaped) <= state.reaped
      ensures |state.table| + |state.reaped| == |old(state.table)| + |old(state.reaped)|
      ensures state.phase == old(state.phase) && state.pids == old(state.pids)
    {
      Advance(EnterHandler);
      var k, pid := 0, 1;
      while pid > 0
        invariant Valid() && old(run) <= run
        invariant state.handler == if pid > 0 then Draining else LeavingLoop
        invariant old(state.reaped) <= state.reaped
        invariant |state.table| + |state.reaped| == |old(state.table)| + |old(state.reaped)|
        invariant state.phase == old(state.phase) && state.pids == old(state.pids)
        decreases |state.table|, if pid > 0 then 1 else 0
      {
        Elapse(meanwhile(k));
        pid := WaitNoHang();
        k := k + 1;
      }
      Elapse(meanwhile(k));
      Advance(LeaveHandler);
      Invariant(run, |run| - 1);
    }
  }
}
