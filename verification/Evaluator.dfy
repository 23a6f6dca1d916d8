/** The meaning of a command line: the `execute` and `waitpid` calls it makes, in order, with
    what each process gets as its standard input and output. A pure evaluator of segments,
    with no descriptors, for every pattern of failing system calls. */
module Evaluator {
  import opened Options
  import opened CommandLine

  /** What `waitpid` can report: WIFEXITED with WEXITSTATUS, or WIFSIGNALED. */
  datatype Status = Exited(code: nat) | Signaled(signal: nat)

  /** `waitpid` on one process: its status, or ECHILD when the SIGCHLD handler was faster. */
  datatype Wait = Delivered(status: Status) | NoChild

  type Pid = p: nat | p > 0 witness 1

  /** The environment. The system call made at tick t succeeds if ok(t); a fork yields pid(t)
      and a waitpid wait(t). junk(t) is what an uninitialised `status` holds. */
  datatype World = World(ok: nat -> bool, pid: nat -> Pid, wait: nat -> Wait, junk: nat -> Status)

  /** An open file. Pipes and files are told apart by the tick of the call that opened them. */
  datatype Handle =
    | Inherited(n: nat)
    | PipeRead(id: nat)
    | PipeWrite(id: nat)
    | FileIn(name: string, id: nat)
    | FileOut(name: string, id: nat)

  /** The shell's own standard input and output. */
  datatype Terminal = Terminal(stdin: Handle, stdout: Handle)

  /** What one `execute` call did: refused an empty command, failed in a system call, ran a
      builtin, or started a child; the last two with the files on descriptors 0 and 1. */
  datatype Result =
    | Refused
    | Failed
    | Builtin(stdin: Handle, stdout: Handle)
    | Started(pid: Pid, stdin: Handle, stdout: Handle)

  datatype Event =
    | Executed(argv: seq<string>, input: Option<Handle>, output: Option<Handle>, result: Result)
    | Awaited(pid: Pid)

  /** The table of builtins. */
  const BUILTINS: seq<string> := ["hostname", "cd", "pwd"]

  predicate IsBuiltin(command: string) {
    command in BUILTINS
  }

  function Count(h: Option<Handle>): nat {
    if h.Some? then 1 else 0
  }

  /** The middle of an `execute` call: up to two dup2s, then the builtin or a fork. */
  function LaunchSaved(w: World, own: Terminal, argv: seq<string>, input: Option<Handle>, output: Option<Handle>, t: nat): (Result, nat)
    requires argv != []
  {
    var out2 := t + Count(input);
    var last := out2 + Count(output);
    if input.Some? && !w.ok(t) then (Failed, t + 1)
    else if output.Some? && !w.ok(out2) then (Failed, out2 + 1)
    else if IsBuiltin(argv[0]) then (Builtin(input.Or(own.stdin), output.Or(own.stdout)), last)
    else if !w.ok(last) then (Failed, last + 1)
    else (Started(w.pid(last), input.Or(own.stdin), output.Or(own.stdout)), last + 1)
  }

  /** One `execute` call from tick t on: it saves descriptors 0 and 1 with two dups first. */
  function Launch(w: World, own: Terminal, argv: seq<string>, input: Option<Handle>, output: Option<Handle>, t: nat): (Result, nat) {
    if argv == [] then (Refused, t)
    else if !w.ok(t) || !w.ok(t + 1) then (Failed, t + 2)
    else LaunchSaved(w, own, argv, input, output, t + 2)
  }

  /** Which outcome a call has: a command whose name is in the table runs as a builtin, any other
      is started if the fork succeeds, both with what they are handed as standard input and
      output; unless a dup or dup2 fails, which ends the call. */
  lemma LaunchExactly(w: World, own: Terminal, argv: seq<string>, input: Option<Handle>, output: Option<Handle>, t: nat)
    ensures var (r, u) := Launch(w, own, argv, input, output, t);
            var last := t + 2 + Count(input) + Count(output);
            var stdin, stdout := input.Or(own.stdin), output.Or(own.stdout);
            if argv == [] then
              r == Refused && u == t
            else if exists i :: t <= i < last && !w.ok(i) then
              && r == Failed && t + 2 <= u <= last && (exists i :: t <= i < u && !w.ok(i))
              && (u > t + 2 ==> forall i | t <= i < u - 1 :: w.ok(i))
            else if argv[0] in ["hostname", "cd", "pwd"] then
              r == Builtin(stdin, stdout) && u == last
            else
              r == (if w.ok(last) then Started(w.pid(last), stdin, stdout) else Failed) && u == last + 1
  {
  }

  /** The input and output a segment has after its redirections, at tick t. */
  datatype Ends = Ends(input: Option<Handle>, output: Option<Handle>, t: nat)

  /** The ends after the first of `redirects`, if its open succeeds. */
  function AfterFirst(redirects: seq<Redirect>, ends: Ends): Ends
    requires redirects != []
  {
    match redirects[0]
    case Input(file) => ends.(input := Some(FileIn(file, ends.t)), t := ends.t + 1)
    case Output(file) => ends.(output := Some(FileOut(file, ends.t)), t := ends.t + 1)
  }

  /** Opens the redirections from left to right; None if an open fails. */
  function Redirected(w: World, redirects: seq<Redirect>, ends: Ends): Option<Ends>
    decreases |redirects|
  {
    if redirects == [] then Some(ends)
    else if !w.ok(ends.t) then None
    else Redirected(w, redirects[1..], AfterFirst(redirects, ends))
  }

  function AwaitAll(pids: seq<Pid>): seq<Event> {
    seq(|pids|, i requires 0 <= i < |pids| => Awaited(pids[i]))
  }

  function Joined(pids: seq<Pid>, r: Result): seq<Pid> {
    if r.Started? then pids + [r.pid] else pids
  }

  predicate IsPid(r: Result, pid: Pid) {
    r.Started? && r.pid == pid
  }

  /** The `last_status` that the `&&` loop computes when it waits for `pids` in turn. */
  function LastStatus(w: World, pids: seq<Pid>, r: Result, status: Status, last: Status, t: nat): Status
    decreases |pids|
  {
    if pids == [] then last
    else
      var now := if w.wait(t).Delivered? then w.wait(t).status else status;
      LastStatus(w, pids[1..], r, now, if IsPid(r, pids[0]) then now else last, t + 1)
  }

  predicate Fails(s: Status) {
    s.Exited? && s.code != 0
  }

  /** The last status that the n waits from tick t on deliver, or `before` if none does. */
  function Latest(w: World, n: nat, t: nat, before: Status): Status {
    if n == 0 then before
    else if w.wait(t + n - 1).Delivered? then w.wait(t + n - 1).status
    else Latest(w, n - 1, t, before)
  }

  /** It is the status of the k-th of them if that one delivers and no later one does. */
  lemma {:induction false} LatestIs(w: World, n: nat, t: nat, before: Status)
    ensures (forall i | t <= i < t + n :: w.wait(i) == NoChild) ==> Latest(w, n, t, before) == before
    ensures forall k | t <= k < t + n && w.wait(k).Delivered? && (forall i | k < i < t + n :: w.wait(i) == NoChild) ::
              Latest(w, n, t, before) == w.wait(k).status
  {
    if n > 0 {
      LatestIs(w, n - 1, t, before);
    }
  }

  lemma {:induction false} LatestAppends(w: World, n: nat, t: nat, before: Status)
    requires n > 0
    ensures Latest(w, n, t, before) == Latest(w, n - 1, t + 1, if w.wait(t).Delivered? then w.wait(t).status else before)
  {
    if n > 1 {
      LatestAppends(w, n - 1, t, before);
    }
  }

  /** Without a process of its own, the last stage counts as what `last` was set to: success. */
  lemma {:induction false} NoProcessCounts(w: World, pids: seq<Pid>, r: Result, status: Status, last: Status, t: nat)
    requires !r.Started?
    ensures LastStatus(w, pids, r, status, last, t) == last
    decreases |pids|
  {
    if pids != [] {
      NoProcessCounts(w, pids[1..], r, if w.wait(t).Delivered? then w.wait(t).status else status, last, t + 1);
    }
  }

  /** With one, the `&&` acts on the last status that any wait for the pipeline delivered, or on
      the uninitialised one: on that process's own if its own wait, the last, delivers it. */
  lemma {:induction false} LatestCounts(w: World, pids: seq<Pid>, r: Result, status: Status, last: Status, t: nat)
    requires r.Started? && pids != [] && pids[|pids| - 1] == r.pid
    ensures LastStatus(w, pids, r, status, last, t) == Latest(w, |pids|, t, status)
    ensures var own := w.wait(t + |pids| - 1); own.Delivered? ==> LastStatus(w, pids, r, status, last, t) == own.status
    decreases |pids|
  {
    var now := if w.wait(t).Delivered? then w.wait(t).status else status;
    LatestAppends(w, |pids|, t, status);
    if |pids| > 1 {
      LatestCounts(w, pids[1..], r, now, if IsPid(r, pids[0]) then now else last, t + 1);
    }
  }

  /** So behind an `&&` the line ends exactly if the stage in front of it was started and the
      last status delivered is an exit with a code above 0. A builtin, an empty segment, a failed
      fork, an exit with 0 and a child killed by whatever signal all let it go on. */
  lemma AndGoesOnExactly(w: World, own: Terminal, argv: seq<string>, rest: seq<Segment>, e: Ends, pids: seq<Pid>)
    ensures var (r, t) := Launch(w, own, argv, e.input, e.output, e.t);
            var made := [Executed(argv, e.input, e.output, r)] + AwaitAll(Joined(pids, r));
            var latest := Latest(w, |pids| + 1, t, w.junk(t));
            var all := EvalEnding(w, own, argv, AndThen, rest, e, pids);
            && (r.Started? && latest.Exited? && latest.code > 0 ==> all == made)
            && (!r.Started? || latest == Exited(0) || latest.Signaled? ==>
                  all == made + Eval(w, own, rest, Ends(None, None, t + |Joined(pids, r)|), []))
  {
    var (r, t) := Launch(w, own, argv, e.input, e.output, e.t);
    if r.Started? {
      LatestCounts(w, Joined(pids, r), r, w.junk(t), Exited(0), t);
    } else {
      NoProcessCounts(w, pids, r, w.junk(t), Exited(0), t);
    }
  }

  /** All calls the line makes from its first segment on, with `ends` what that segment is
      given and `pids` the processes of its pipeline so far. */
  function Eval(w: World, own: Terminal, segs: seq<Segment>, ends: Ends, pids: seq<Pid>): seq<Event>
    decreases |segs|, 0
  {
    if segs == [] then AwaitAll(pids)
    else
      var s := segs[0];
      match Redirected(w, s.redirects, ends)
      case None => AwaitAll(pids)
      case Some(e) => EvalEnding(w, own, s.argv, s.ending, segs[1..], e, pids)
  }

  function EvalEnding(w: World, own: Terminal, argv: seq<string>, ending: Ending, rest: seq<Segment>, e: Ends, pids: seq<Pid>): seq<Event>
    decreases |rest|, 1
  {
    match ending
    case NoFile => AwaitAll(pids)
    case Finish =>
      var (r, _) := Launch(w, own, argv, e.input, e.output, e.t);
      [Executed(argv, e.input, e.output, r)] + AwaitAll(Joined(pids, r))
    case Ampersand =>
      var (r, _) := Launch(w, own, argv, e.input, e.output, e.t);
      [Executed(argv, e.input, e.output, r)]
    case PipeTo =>
      if !w.ok(e.t) then AwaitAll(pids)
      else
        var output := if e.output.Some? then e.output else Some(PipeWrite(e.t));
        var (r, t) := Launch(w, own, argv, e.input, output, e.t + 1);
        [Executed(argv, e.input, output, r)]
        + if r.Started? then Eval(w, own, rest, Ends(Some(PipeRead(e.t)), None, t), Joined(pids, r)) else AwaitAll(pids)
    case AndThen =>
      var (r, t) := Launch(w, own, argv, e.input, e.output, e.t);
      var group := Joined(pids, r);
      [Executed(argv, e.input, e.output, r)] + AwaitAll(group)
      + if Fails(LastStatus(w, group, r, w.junk(t), Exited(0), t)) then []
        else Eval(w, own, rest, Ends(None, None, t + |group|), [])
  }

  /** The calls of a whole line, starting at tick t. */
  function EvalLine(w: World, own: Terminal, tokens: seq<string>, t: nat): seq<Event> {
    Eval(w, own, Parse(tokens), Ends(None, None, t), [])
  }

  lemma EvalHead(w: World, own: Terminal, argv: seq<string>, ending: Ending, rest: seq<Segment>, ends: Ends, pids: seq<Pid>)
    ensures Eval(w, own, [Segment(argv, [], ending)] + rest, ends, pids) == EvalEnding(w, own, argv, ending, rest, ends, pids)
  {
    assert ([Segment(argv, [], ending)] + rest)[1..] == rest;
  }

  // ----- Redirections -----

  /** The redirections take effect exactly when every one of their opens succeeds. */
  lemma {:induction false} RedirectedIff(w: World, redirects: seq<Redirect>, ends: Ends)
    ensures Redirected(w, redirects, ends).Some? <==> forall u | ends.t <= u < ends.t + |redirects| :: w.ok(u)
    ensures Redirected(w, redirects, ends).Some? ==> Redirected(w, redirects, ends).value.t == ends.t + |redirects|
    decreases |redirects|
  {
    if redirects != [] && w.ok(ends.t) {
      RedirectedIff(w, redirects[1..], AfterFirst(redirects, ends));
    }
  }

  /** A direction that is not redirected keeps what the segment was given. */
  lemma {:induction false} UnredirectedKeeps(w: World, redirects: seq<Redirect>, ends: Ends)
    requires Redirected(w, redirects, ends).Some?
    ensures (forall r | r in redirects :: r.Output?) ==> Redirected(w, redirects, ends).value.input == ends.input
    ensures (forall r | r in redirects :: r.Input?) ==> Redirected(w, redirects, ends).value.output == ends.output
    decreases |redirects|
  {
    if redirects != [] {
      UnredirectedKeeps(w, redirects[1..], AfterFirst(redirects, ends));
      assert redirects[0] in redirects && forall r | r in redirects[1..] :: r in redirects;
    }
  }

  /** The last redirection of each direction wins, over earlier ones and over a pipe. */
  lemma {:induction false} LastRedirectionWins(w: World, redirects: seq<Redirect>, ends: Ends, i: nat)
    requires Redirected(w, redirects, ends).Some? && i < |redirects|
    ensures redirects[i].Input? && (forall r | r in redirects[i + 1..] :: r.Output?) ==>
              Redirected(w, redirects, ends).value.input == Some(FileIn(redirects[i].file, ends.t + i))
    ensures redirects[i].Output? && (forall r | r in redirects[i + 1..] :: r.Input?) ==>
              Redirected(w, redirects, ends).value.output == Some(FileOut(redirects[i].file, ends.t + i))
    decreases |redirects|
  {
    var next := AfterFirst(redirects, ends);
    if i == 0 {
      UnredirectedKeeps(w, redirects[1..], next);
    } else {
      assert redirects[1..][i - 1..][1..] == redirects[i + 1..] && redirects[1..][i..] == redirects[i + 1..];
      LastRedirectionWins(w, redirects[1..], next, i - 1);
    }
  }

  /** The file of the last redirection of a direction. */
  function LastInput(redirects: seq<Redirect>): Option<string> {
    if redirects == [] then None
    else if LastInput(redirects[1..]).Some? then LastInput(redirects[1..])
    else if redirects[0].Input? then Some(redirects[0].file) else None
  }

  function LastOutput(redirects: seq<Redirect>): Option<string> {
    if redirects == [] then None
    else if LastOutput(redirects[1..]).Some? then LastOutput(redirects[1..])
    else if redirects[0].Output? then Some(redirects[0].file) else None
  }

  /** The input is the file of the last `<`, or else what was given. */
  predicate InputIs(h: Option<Handle>, redirects: seq<Redirect>, given: Option<Handle>) {
    match LastInput(redirects)
    case None => h == given
    case Some(file) => h.Some? && h.value.FileIn? && h.value.name == file
  }

  predicate OutputIs(h: Option<Handle>, redirects: seq<Redirect>, given: Option<Handle>) {
    match LastOutput(redirects)
    case None => h == given
    case Some(file) => h.Some? && h.value.FileOut? && h.value.name == file
  }

  lemma {:induction false} RedirectedIs(w: World, redirects: seq<Redirect>, ends: Ends)
    requires Redirected(w, redirects, ends).Some?
    ensures var e := Redirected(w, redirects, ends).value;
            && InputIs(e.input, redirects, ends.input) && OutputIs(e.output, redirects, ends.output) && e.t >= ends.t
    decreases |redirects|
  {
    if redirects != [] {
      RedirectedIs(w, redirects[1..], AfterFirst(redirects, ends));
    }
  }

  // ----- Pipelines -----

  /** The `execute` calls among the events. */
  function Executions(events: seq<Event>): seq<Event> {
    if events == [] then []
    else (if events[0].Executed? then [events[0]] else []) + Executions(events[1..])
  }

  lemma {:induction false} ExecutionsAppend(a: seq<Event>, b: seq<Event>)
    ensures Executions(a + b) == Executions(a) + Executions(b)
  {
    if a == [] {
      assert a + b == b;
    } else {
      assert (a + b)[0] == a[0] && (a + b)[1..] == a[1..] + b;
      ExecutionsAppend(a[1..], b);
      var first := if a[0].Executed? then [a[0]] else [];
      assert first + (Executions(a[1..]) + Executions(b)) == first + Executions(a[1..]) + Executions(b);
    }
  }

  lemma {:induction false} ExecutionAt(events: seq<Event>, k: nat)
    requires k < |events| && events[k].Executed?
    ensures var i := |Executions(events[..k])|; i < |Executions(events)| && Executions(events)[i] == events[k]
  {
    var rest := events[k..];
    assert events == events[..k] + rest && rest[0] == events[k];
    ExecutionsAppend(events[..k], rest);
  }

  lemma {:induction false} ExecutionFrom(events: seq<Event>, i: nat) returns (k: nat)
    requires i < |Executions(events)|
    ensures k < |events| && events[k] == Executions(events)[i] && events[k].Executed?
  {
    if events[0].Executed? && i == 0 {
      k := 0;
    } else {
      var before := ExecutionFrom(events[1..], if events[0].Executed? then i - 1 else i);
      k := before + 1;
    }
  }

  lemma {:induction false} AwaitingExecutesNothing(pids: seq<Pid>)
    ensures Executions(AwaitAll(pids)) == []
    decreases |pids|
  {
    if pids != [] {
      assert AwaitAll(pids)[1..] == AwaitAll(pids[1..]);
      AwaitingExecutesNothing(pids[1..]);
    }
  }

  /** A process of the line, with what it has as its standard input and output. */
  datatype Process = Process(pid: Pid, argv: seq<string>, stdin: Handle, stdout: Handle)

  /** The processes that the calls have started, in order. */
  function Processes(events: seq<Event>): seq<Process> {
    if events == [] then [] else Processes(events[..|events| - 1]) + ProcessOf(events[|events| - 1])
  }

  function ProcessOf(e: Event): seq<Process> {
    if e.Executed? && e.result.Started? then [Process(e.result.pid, e.argv, e.result.stdin, e.result.stdout)] else []
  }

  lemma {:induction false} ProcessesAppend(a: seq<Event>, b: seq<Event>)
    ensures Processes(a + b) == Processes(a) + Processes(b)
  {
    if b == [] {
      assert a + b == a;
    } else {
      var last := |b| - 1;
      assert (a + b)[..|a + b| - 1] == a + b[..last];
      ProcessesAppend(a, b[..last]);
    }
  }

  /** A started stage is the process behind those that the calls in front of it have started. */
  lemma {:induction false} ProcessAt(events: seq<Event>, k: nat)
    requires k < |events| && events[k].Executed? && events[k].result.Started?
    ensures var r := events[k].result; var n := |Processes(events[..k])|;
            n < |Processes(events)| && Processes(events)[n] == Process(r.pid, events[k].argv, r.stdin, r.stdout)
  {
    assert events == events[..k + 1] + events[k + 1..] && events[..k + 1][..k] == events[..k];
    ProcessesAppend(events[..k + 1], events[k + 1..]);
  }

  lemma {:induction false} ProcessFrom(events: seq<Event>, n: nat) returns (k: nat)
    requires n < |Processes(events)|
    ensures k < |events| && events[k].Executed? && events[k].result.Started?
    ensures var r := events[k].result; Processes(events)[n] == Process(r.pid, events[k].argv, r.stdin, r.stdout)
  {
    var last := |events| - 1;
    if n < |Processes(events[..last])| {
      k := ProcessFrom(events[..last], n);
    } else {
      k := last;
    }
  }

  function Pids(processes: seq<Process>): seq<Pid> {
    seq(|processes|, i requires 0 <= i < |processes| => processes[i].pid)
  }

  /** The `execute` call `e` for the segment `s`, which was given `given` as its input, and the
      pipe `id` if it is piped on. */
  predicate StageWired(own: Terminal, s: Segment, e: Event, given: Option<Handle>, id: nat) {
    && e.Executed? && e.argv == s.argv
    && InputIs(e.input, s.redirects, given)
    && OutputIs(e.output, s.redirects, if s.ending == PipeTo then Some(PipeWrite(id)) else None)
    && (e.result.Refused? <==> s.argv == [])
    && (e.result.Builtin? ==> IsBuiltin(s.argv[0])) && (e.result.Started? ==> !IsBuiltin(s.argv[0]))
    && (e.result.Started? || e.result.Builtin? ==> e.result.stdin == e.input.Or(own.stdin) && e.result.stdout == e.output.Or(own.stdout))
  }

  /** What segment i is given: the read end of the pipe behind the segment in front of it. */
  function Given(segs: seq<Segment>, ids: seq<nat>, input: Option<Handle>, i: nat): Option<Handle>
    requires i < |segs| && (i > 0 ==> i - 1 < |ids|)
  {
    if i == 0 then input
    else if segs[i - 1].ending == PipeTo then Some(PipeRead(ids[i - 1]))
    else None
  }

  ghost predicate StagesWired(own: Terminal, segs: seq<Segment>, made: seq<Event>, input: Option<Handle>, ids: seq<nat>)
    requires |made| == |ids| <= |segs|
  {
    forall i | 0 <= i < |made| :: StageWired(own, segs[i], made[i], Given(segs, ids, input, i), ids[i])
  }

  /** Each pipe is made after those in front of it, and what is piped on was started. */
  ghost predicate InTurn(segs: seq<Segment>, made: seq<Event>, ids: seq<nat>, since: nat)
    requires |made| == |ids| <= |segs|
  {
    && (forall i | 0 <= i < |ids| :: ids[i] >= since)
    && (forall i, j | 0 <= i < j < |ids| && segs[i].ending == PipeTo :: ids[i] < ids[j])
    && (forall i | 0 <= i < |made| - 1 && segs[i].ending == PipeTo :: made[i].Executed? && made[i].result.Started?)
  }

  /** The `execute` calls `made` are those for the first segments, in order, with pipes `ids` of
      their own, made at tick `since` or later. */
  ghost predicate Wired(own: Terminal, segs: seq<Segment>, made: seq<Event>, input: Option<Handle>, ids: seq<nat>, since: nat) {
    |made| == |ids| <= |segs| && StagesWired(own, segs, made, input, ids) && InTurn(segs, made, ids, since)
  }

  lemma LaunchTakesTime(w: World, own: Terminal, argv: seq<string>, input: Option<Handle>, output: Option<Handle>, t: nat)
    ensures var (r, u) := Launch(w, own, argv, input, output, t);
            u >= t && (r.Refused? <==> argv == []) && (r.Refused? ==> u == t)
  {
  }

  /** One `execute` call with the ends of its segment. */
  lemma LaunchWired(w: World, own: Terminal, s: Segment, e: Ends, output: Option<Handle>, given: Option<Handle>, id: nat, t: nat)
    requires InputIs(e.input, s.redirects, given)
    requires OutputIs(output, s.redirects, if s.ending == PipeTo then Some(PipeWrite(id)) else None)
    ensures var (r, u) := Launch(w, own, s.argv, e.input, output, t);
            StageWired(own, s, Executed(s.argv, e.input, output, r), given, id) && u >= t
  {
  }

  lemma GivenLater(segs: seq<Segment>, id: nat, ids: seq<nat>, input: Option<Handle>, i: nat)
    requires 0 < i < |segs| && i <= |ids| + 1
    ensures Given(segs, [id] + ids, input, i) ==
            Given(segs[1..], ids, if segs[0].ending == PipeTo then Some(PipeRead(id)) else None, i - 1)
  {
  }

  lemma WiredStages(own: Terminal, segs: seq<Segment>, first: Event, rest: seq<Event>, input: Option<Handle>, id: nat, ids: seq<nat>)
    requires |rest| == |ids| < |segs| && StageWired(own, segs[0], first, input, id)
    requires StagesWired(own, segs[1..], rest, if segs[0].ending == PipeTo then Some(PipeRead(id)) else None, ids)
    ensures StagesWired(own, segs, [first] + rest, input, [id] + ids)
  {
    hide StageWired;
    var made, all := [first] + rest, [id] + ids;
    forall i | 0 <= i < |made|
      ensures StageWired(own, segs[i], made[i], Given(segs, all, input, i), all[i])
    {
      if i > 0 {
        GivenLater(segs, id, ids, input, i);
        assert segs[1..][i - 1] == segs[i] && rest[i - 1] == made[i] && ids[i - 1] == all[i];
      }
    }
  }

  lemma InTurnFirst(segs: seq<Segment>, first: Event, rest: seq<Event>, id: nat, ids: seq<nat>, since: nat, later: nat)
    requires |rest| == |ids| < |segs| && since <= id && since <= later && (segs[0].ending == PipeTo ==> id < later)
    requires segs[0].ending == PipeTo && rest != [] ==> first.Executed? && first.result.Started?
    requires InTurn(segs[1..], rest, ids, later)
    ensures InTurn(segs, [first] + rest, [id] + ids, since)
  {
    assert forall i | 1 <= i < |segs| :: segs[1..][i - 1] == segs[i];
  }

  lemma WiredFirst(own: Terminal, segs: seq<Segment>, first: Event, rest: seq<Event>, input: Option<Handle>,
                   id: nat, ids: seq<nat>, since: nat, later: nat)
    requires segs != [] && since <= id && later >= since && (segs[0].ending == PipeTo ==> id < later)
    requires StageWired(own, segs[0], first, input, id)
    requires segs[0].ending == PipeTo && rest != [] ==> first.result.Started?
    requires Wired(own, segs[1..], rest, if segs[0].ending == PipeTo then Some(PipeRead(id)) else None, ids, later)
    ensures Wired(own, segs, [first] + rest, input, [id] + ids, since)
  {
    WiredStages(own, segs, first, rest, input, id, ids);
    InTurnFirst(segs, first, rest, id, ids, since, later);
  }

  /** In every line and whatever fails, the `execute` calls are those for its first segments in
      turn. Each gets the files of its last redirections, or else the read end of the pipe that
      the segment in front writes, and the write end of a pipe of its own if it is piped on. */
  lemma {:induction false} SegmentsConnect(w: World, own: Terminal, segs: seq<Segment>, ends: Ends, pids: seq<Pid>) returns (ids: seq<nat>)
    requires ends.output.None?
    ensures Wired(own, segs, Executions(Eval(w, own, segs, ends, pids)), ends.input, ids, ends.t)
    decreases |segs|, 1
  {
    AwaitingExecutesNothing(pids);
    ids := [];
    if segs != [] && Redirected(w, segs[0].redirects, ends).Some? {
      var s, e := segs[0], Redirected(w, segs[0].redirects, ends).value;
      RedirectedIs(w, s.redirects, ends);
      match s.ending {
        case NoFile =>
        case PipeTo => ids := StageConnects(w, own, segs, ends.input, e, pids);
        case AndThen => ids := ListConnects(w, own, segs, ends.input, e, pids);
        case _ => ids := LastConnects(w, own, segs, ends.input, e, pids);
      }
      WiredSince(own, segs, Executions(Eval(w, own, segs, ends, pids)), ends.input, ids, e.t, ends.t);
    }
  }

  lemma WiredSince(own: Terminal, segs: seq<Segment>, made: seq<Event>, input: Option<Handle>, ids: seq<nat>, since: nat, sooner: nat)
    requires Wired(own, segs, made, input, ids, since) && sooner <= since
    ensures Wired(own, segs, made, input, ids, sooner)
  {
  }

  lemma LastConnects(w: World, own: Terminal, segs: seq<Segment>, given: Option<Handle>, e: Ends, pids: seq<Pid>) returns (ids: seq<nat>)
    requires segs != [] && (segs[0].ending == Finish || segs[0].ending == Ampersand)
    requires InputIs(e.input, segs[0].redirects, given) && OutputIs(e.output, segs[0].redirects, None)
    ensures Wired(own, segs, Executions(EvalEnding(w, own, segs[0].argv, segs[0].ending, segs[1..], e, pids)), given, ids, e.t)
  {
    var r := Launch(w, own, segs[0].argv, e.input, e.output, e.t).0;
    var first := Executed(segs[0].argv, e.input, e.output, r);
    var after := if segs[0].ending == Finish then AwaitAll(Joined(pids, r)) else [];
    LaunchWired(w, own, segs[0], e, e.output, given, e.t, e.t);
    AwaitingExecutesNothing(Joined(pids, r));
    assert ([first] + after)[1..] == after && [first] + [] == [first];
    ids := [e.t] + [];
    WiredFirst(own, segs, first, [], given, e.t, [], e.t, e.t);
  }

  lemma StageExecutes(w: World, own: Terminal, argv: seq<string>, rest: seq<Segment>, e: Ends, pids: seq<Pid>, output: Option<Handle>,
                      r: Result, u: nat)
    requires w.ok(e.t) && output == if e.output.Some? then e.output else Some(PipeWrite(e.t))
    requires (r, u) == Launch(w, own, argv, e.input, output, e.t + 1)
    ensures Executions(EvalEnding(w, own, argv, PipeTo, rest, e, pids)) ==
            [Executed(argv, e.input, output, r)]
            + if r.Started? then Executions(Eval(w, own, rest, Ends(Some(PipeRead(e.t)), None, u), Joined(pids, r))) else []
  {
    var first := Executed(argv, e.input, output, r);
    var after := if r.Started? then Eval(w, own, rest, Ends(Some(PipeRead(e.t)), None, u), Joined(pids, r)) else AwaitAll(pids);
    AwaitingExecutesNothing(pids);
    assert ([first] + after)[1..] == after;
  }

  lemma StageConnects(w: World, own: Terminal, segs: seq<Segment>, given: Option<Handle>, e: Ends, pids: seq<Pid>) returns (ids: seq<nat>)
    requires segs != [] && segs[0].ending == PipeTo
    requires InputIs(e.input, segs[0].redirects, given) && OutputIs(e.output, segs[0].redirects, None)
    ensures Wired(own, segs, Executions(EvalEnding(w, own, segs[0].argv, PipeTo, segs[1..], e, pids)), given, ids, e.t)
    decreases |segs|, 0
  {
    ids := [];
    AwaitingExecutesNothing(pids);
    if w.ok(e.t) {
      var output := if e.output.Some? then e.output else Some(PipeWrite(e.t));
      var (r, u) := Launch(w, own, segs[0].argv, e.input, output, e.t + 1);
      LaunchWired(w, own, segs[0], e, output, given, e.t, e.t + 1);
      StageExecutes(w, own, segs[0].argv, segs[1..], e, pids, output, r, u);
      var made, later := [], [];
      if r.Started? {
        var next := Ends(Some(PipeRead(e.t)), None, u);
        later := SegmentsConnect(w, own, segs[1..], next, Joined(pids, r));
        made := Executions(Eval(w, own, segs[1..], next, Joined(pids, r)));
      }
      ids := [e.t] + later;
      WiredFirst(own, segs, Executed(segs[0].argv, e.input, output, r), made, given, e.t, later, e.t, u);
    }
  }

  lemma ListExecutes(w: World, own: Terminal, argv: seq<string>, rest: seq<Segment>, e: Ends, pids: seq<Pid>, r: Result, u: nat, status: Status)
    requires (r, u) == Launch(w, own, argv, e.input, e.output, e.t)
    requires status == LastStatus(w, Joined(pids, r), r, w.junk(u), Exited(0), u)
    ensures Executions(EvalEnding(w, own, argv, AndThen, rest, e, pids)) ==
            [Executed(argv, e.input, e.output, r)] + Executions(AfterAnd(w, own, rest, status, u + |Joined(pids, r)|))
  {
    var first, group := Executed(argv, e.input, e.output, r), Joined(pids, r);
    var next := AfterAnd(w, own, rest, status, u + |group|);
    AndUnfolds(w, own, argv, rest, e, pids, r, u, status);
    assert [first] + AwaitAll(group) + next == [first] + (AwaitAll(group) + next);
    assert ([first] + (AwaitAll(group) + next))[1..] == AwaitAll(group) + next;
    ExecutionsAppend(AwaitAll(group), next);
    AwaitingExecutesNothing(group);
  }

  lemma ListConnects(w: World, own: Terminal, segs: seq<Segment>, given: Option<Handle>, e: Ends, pids: seq<Pid>) returns (ids: seq<nat>)
    requires segs != [] && segs[0].ending == AndThen
    requires InputIs(e.input, segs[0].redirects, given) && OutputIs(e.output, segs[0].redirects, None)
    ensures Wired(own, segs, Executions(EvalEnding(w, own, segs[0].argv, AndThen, segs[1..], e, pids)), given, ids, e.t)
    decreases |segs|, 0
  {
    var (r, u) := Launch(w, own, segs[0].argv, e.input, e.output, e.t);
    var after := u + |Joined(pids, r)|;
    LaunchWired(w, own, segs[0], e, e.output, given, e.t, e.t);
    var status := LastStatus(w, Joined(pids, r), r, w.junk(u), Exited(0), u);
    ListExecutes(w, own, segs[0].argv, segs[1..], e, pids, r, u, status);
    var made, later := [], [];
    if !Fails(status) {
      later := SegmentsConnect(w, own, segs[1..], Ends(None, None, after), []);
      made := Executions(Eval(w, own, segs[1..], Ends(None, None, after), []));
    }
    ids := [e.t] + later;
    WiredFirst(own, segs, Executed(segs[0].argv, e.input, e.output, r), made, given, e.t, later, e.t, after);
  }

  /** The same for a whole line. */
  lemma LineConnects(w: World, own: Terminal, tokens: seq<string>, t: nat) returns (ids: seq<nat>)
    ensures Wired(own, Parse(tokens), Executions(EvalLine(w, own, tokens, t)), None, ids, t)
  {
    ids := SegmentsConnect(w, own, Parse(tokens), Ends(None, None, t), []);
  }

  // ----- What is reached and what is waited for -----

  /** The system calls in front of the segment's `execute`: its opens, and its pipe. */
  function CallsBefore(s: Segment): nat {
    |s.redirects| + if s.ending == PipeTo then 1 else 0
  }

  /** The first segment is executed exactly if all of these succeed and no file is missing. */
  lemma HeadExecutesExactly(w: World, own: Terminal, segs: seq<Segment>, ends: Ends, pids: seq<Pid>)
    requires segs != []
    ensures Executions(Eval(w, own, segs, ends, pids)) != [] <==>
            segs[0].ending != NoFile && forall i | ends.t <= i < ends.t + CallsBefore(segs[0]) :: w.ok(i)
  {
    hide EvalEnding, Launch;
    var s := segs[0];
    RedirectedIff(w, s.redirects, ends);
    AwaitingExecutesNothing(pids);
    if Redirected(w, s.redirects, ends).Some? {
      var e := Redirected(w, s.redirects, ends).value;
      EndingExecutes(w, own, s.argv, s.ending, segs[1..], e, pids);
    }
  }

  lemma EndingExecutes(w: World, own: Terminal, argv: seq<string>, ending: Ending, rest: seq<Segment>, e: Ends, pids: seq<Pid>)
    ensures Executions(EvalEnding(w, own, argv, ending, rest, e, pids)) != [] <==> ending != NoFile && (ending == PipeTo ==> w.ok(e.t))
  {
    hide Launch;
    AwaitingExecutesNothing(pids);
    var all := EvalEnding(w, own, argv, ending, rest, e, pids);
    if ending != NoFile && (ending == PipeTo ==> w.ok(e.t)) {
      assert all[0].Executed?;
    }
  }

  /** The stage behind a pipe is executed exactly if the stage in front is an external command,
      every call up to its start succeeds, and so do those in front of the stage behind it: so a
      builtin, an empty segment and a failed fork all end the line. */
  lemma PipeGoesOnExactly(w: World, own: Terminal, segs: seq<Segment>, ends: Ends, e: Ends, pids: seq<Pid>)
    requires |segs| > 1 && segs[0].ending == PipeTo && Redirected(w, segs[0].redirects, ends) == Some(e)
    ensures var started := e.t + 1 + 2 + Count(e.input) + 1 + 1;
            |Executions(Eval(w, own, segs, ends, pids))| > 1 <==>
            && segs[0].argv != [] && segs[0].argv[0] !in ["hostname", "cd", "pwd"] && segs[1].ending != NoFile
            && forall i | e.t <= i < started + CallsBefore(segs[1]) :: w.ok(i)
  {
    hide Launch, CallsBefore;
    AwaitingExecutesNothing(pids);
    if w.ok(e.t) {
      var output := if e.output.Some? then e.output else Some(PipeWrite(e.t));
      var (r, u) := Launch(w, own, segs[0].argv, e.input, output, e.t + 1);
      LaunchExactly(w, own, segs[0].argv, e.input, output, e.t + 1);
      StageExecutes(w, own, segs[0].argv, segs[1..], e, pids, output, r, u);
      if r.Started? {
        HeadExecutesExactly(w, own, segs[1..], Ends(Some(PipeRead(e.t)), None, u), Joined(pids, r));
      }
    }
  }

  /** The ids that the `waitpid` calls among the events are made for. */
  function Awaits(events: seq<Event>): seq<Pid> {
    if events == [] then []
    else (if events[0].Awaited? then [events[0].pid] else []) + Awaits(events[1..])
  }

  lemma {:induction false} AwaitsAppend(a: seq<Event>, b: seq<Event>)
    ensures Awaits(a + b) == Awaits(a) + Awaits(b)
  {
    if a == [] {
      assert a + b == b;
    } else {
      assert (a + b)[0] == a[0] && (a + b)[1..] == a[1..] + b;
      AwaitsAppend(a[1..], b);
      var first := if a[0].Awaited? then [a[0].pid] else [];
      assert first + (Awaits(a[1..]) + Awaits(b)) == first + Awaits(a[1..]) + Awaits(b);
    }
  }

  lemma {:induction false} AwaitsOfAll(pids: seq<Pid>)
    ensures Awaits(AwaitAll(pids)) == pids && Processes(AwaitAll(pids)) == []
    decreases |pids|
  {
    if pids != [] {
      assert AwaitAll(pids)[1..] == AwaitAll(pids[1..]);
      AwaitsOfAll(pids[1..]);
      AwaitsOfAll(pids[..|pids| - 1]);
      assert AwaitAll(pids)[..|pids| - 1] == AwaitAll(pids[..|pids| - 1]);
    }
  }

  /** The number of segments up to the last `&&`. */
  function InFrontOfLastAnd(segs: seq<Segment>): (n: nat)
    ensures n <= |segs|
  {
    if segs == [] then 0
    else
      var n := InFrontOfLastAnd(segs[1..]);
      if n > 0 || segs[0].ending == AndThen then n + 1 else 0
  }

  /** A line waits once, in order, for every process of `pids` and every process it starts;
      unless it is executed to its end and that is a `&`: then for those in front of the last
      `&&`, and for no other one. */
  ghost predicate WaitsForAll(segs: seq<Segment>, events: seq<Event>, pids: seq<Pid>) {
    var made := Executions(events);
    if segs != [] && |made| == |segs| && segs[|segs| - 1].ending == Ampersand then
      var n := InFrontOfLastAnd(segs);
      Awaits(events) == (if n > 0 then pids else []) + Pids(Processes(made[..n]))
    else
      Awaits(events) == pids + Pids(Processes(made))
  }

  lemma OneProcess(e: Event)
    ensures Processes([e]) == ProcessOf(e)
    ensures e.Executed? ==> forall pids :: Joined(pids, e.result) == pids + Pids(ProcessOf(e))
  {
    assert [e][..0] == [];
  }

  lemma PidsAppend(a: seq<Process>, b: seq<Process>)
    ensures Pids(a + b) == Pids(a) + Pids(b)
  {
  }

  lemma PidsCons(first: Event, made: seq<Event>, pids: seq<Pid>)
    requires first.Executed?
    ensures pids + Pids(Processes([first] + made)) == Joined(pids, first.result) + Pids(Processes(made))
  {
    hide Pids, Processes, ProcessOf, Joined;
    ProcessesAppend([first], made);
    OneProcess(first);
    PidsAppend(ProcessOf(first), Processes(made));
    assert pids + (Pids(ProcessOf(first)) + Pids(Processes(made))) == (pids + Pids(ProcessOf(first))) + Pids(Processes(made));
  }

  lemma PidsOfNone()
    ensures Pids(Processes([])) == []
  {
  }

  lemma ExecutesAndAwaits(first: Event, pids: seq<Pid>, rest: seq<Event>)
    requires first.Executed?
    ensures Executions([first] + AwaitAll(pids) + rest) == [first] + Executions(rest)
    ensures Awaits([first] + AwaitAll(pids) + rest) == pids + Awaits(rest)
  {
    hide AwaitAll;
    var after := AwaitAll(pids) + rest;
    AwaitingExecutesNothing(pids);
    AwaitsOfAll(pids);
    ExecutionsAppend(AwaitAll(pids), rest);
    AwaitsAppend(AwaitAll(pids), rest);
    assert [first] + AwaitAll(pids) + rest == [first] + after;
    assert ([first] + after)[1..] == after;
  }

  /** Behind a pipe the started process is waited for with the rest of its pipeline. */
  lemma PipeWaits(segs: seq<Segment>, first: Event, rest: seq<Event>, pids: seq<Pid>)
    requires |segs| > 1 && segs[0].ending == PipeTo && first.Executed? && first.result.Started?
    requires WaitsForAll(segs[1..], rest, Joined(pids, first.result))
    ensures WaitsForAll(segs, [first] + rest, pids)
  {
    hide Pids, Processes, Executions, Awaits, Joined;
    var made, n := Executions(rest), InFrontOfLastAnd(segs[1..]);
    assert AwaitAll([]) == [] && [first] + [] + rest == [first] + rest;
    ExecutesAndAwaits(first, [], rest);
    PidsCons(first, made, pids);
    if |made| == |segs| - 1 && n > 0 {
      PidsCons(first, made[..n], pids);
      assert ([first] + made)[..n + 1] == [first] + made[..n];
    }
  }

  /** At an `&&` all processes so far are waited for, and no later call waits for them. */
  lemma AndWaits(segs: seq<Segment>, first: Event, rest: seq<Event>, pids: seq<Pid>)
    requires |segs| > 1 && segs[0].ending == AndThen && first.Executed?
    requires WaitsForAll(segs[1..], rest, [])
    ensures WaitsForAll(segs, [first] + AwaitAll(Joined(pids, first.result)) + rest, pids)
  {
    hide Pids, Processes, AwaitAll;
    assert Pids(Processes([])) == [] by {
      PidsOfNone();
    }
    var made, n := Executions(rest), InFrontOfLastAnd(segs[1..]);
    ExecutesAndAwaits(first, Joined(pids, first.result), rest);
    PidsCons(first, made, pids);
    if |made| == |segs| - 1 {
      PidsCons(first, made[..n], pids);
      assert ([first] + made)[..n + 1] == [first] + made[..n];
    }
  }

  /** A line that ends here, in the foreground, waits for all. */
  lemma EndWaits(segs: seq<Segment>, first: Event, pids: seq<Pid>)
    requires |segs| > 1 || (segs != [] && segs[0].ending != Ampersand)
    requires first.Executed?
    ensures WaitsForAll(segs, [first] + AwaitAll(Joined(pids, first.result)), pids)
  {
    var all := [first] + AwaitAll(Joined(pids, first.result));
    assert all + [] == all && [first] + [] == [first];
    ExecutesAndAwaits(first, Joined(pids, first.result), []);
    PidsCons(first, [], pids);
  }

  lemma NothingMoreWaits(segs: seq<Segment>, pids: seq<Pid>)
    requires segs != []
    ensures WaitsForAll(segs, AwaitAll(pids), pids)
  {
    AwaitingExecutesNothing(pids);
    AwaitsOfAll(pids);
  }

  /** In every line and whatever fails, no process is left behind or waited for twice. */
  lemma {:induction false} WaitsExactly(w: World, own: Terminal, segs: seq<Segment>, ends: Ends, pids: seq<Pid>)
    requires Shaped(Endings(segs))
    ensures WaitsForAll(segs, Eval(w, own, segs, ends, pids), pids)
    decreases |segs|, 1
  {
    hide WaitsForAll, Launch, LastStatus;
    if Redirected(w, segs[0].redirects, ends).None? || segs[0].ending == NoFile {
      NothingMoreWaits(segs, pids);
    } else {
      var s, e := segs[0], Redirected(w, segs[0].redirects, ends).value;
      assert Endings(segs)[1..] == Endings(segs[1..]);
      match s.ending {
        case PipeTo => StageWaits(w, own, segs, e, pids);
        case AndThen => ListWaits(w, own, segs, e, pids);
        case _ => LastWaits(w, own, segs, e, pids);
      }
    }
  }

  lemma LastWaits(w: World, own: Terminal, segs: seq<Segment>, e: Ends, pids: seq<Pid>)
    requires |segs| == 1 && (segs[0].ending == Finish || segs[0].ending == Ampersand)
    ensures WaitsForAll(segs, EvalEnding(w, own, segs[0].argv, segs[0].ending, segs[1..], e, pids), pids)
  {
    var r := Launch(w, own, segs[0].argv, e.input, e.output, e.t).0;
    var first := Executed(segs[0].argv, e.input, e.output, r);
    if segs[0].ending == Finish {
      EndWaits(segs, first, pids);
    } else {
      assert AwaitAll([]) == [] && [first] + [] + [] == [first];
      ExecutesAndAwaits(first, [], []);
    }
  }

  lemma {:induction false} StageWaits(w: World, own: Terminal, segs: seq<Segment>, e: Ends, pids: seq<Pid>)
    requires |segs| > 1 && segs[0].ending == PipeTo && Shaped(Endings(segs[1..]))
    ensures WaitsForAll(segs, EvalEnding(w, own, segs[0].argv, PipeTo, segs[1..], e, pids), pids)
    decreases |segs|, 0
  {
    hide WaitsForAll, Launch;
    if w.ok(e.t) {
      var output := if e.output.Some? then e.output else Some(PipeWrite(e.t));
      var (r, u) := Launch(w, own, segs[0].argv, e.input, output, e.t + 1);
      var first, next := Executed(segs[0].argv, e.input, output, r), Ends(Some(PipeRead(e.t)), None, u);
      if r.Started? {
        WaitsExactly(w, own, segs[1..], next, Joined(pids, r));
        PipeWaits(segs, first, Eval(w, own, segs[1..], next, Joined(pids, r)), pids);
      } else {
        EndWaits(segs, first, pids);
      }
    } else {
      NothingMoreWaits(segs, pids);
    }
  }

  lemma {:induction false} ListWaits(w: World, own: Terminal, segs: seq<Segment>, e: Ends, pids: seq<Pid>)
    requires |segs| > 1 && segs[0].ending == AndThen && Shaped(Endings(segs[1..]))
    ensures WaitsForAll(segs, EvalEnding(w, own, segs[0].argv, AndThen, segs[1..], e, pids), pids)
    decreases |segs|, 0
  {
    hide WaitsForAll, Launch, LastStatus;
    var (r, u) := Launch(w, own, segs[0].argv, e.input, e.output, e.t);
    var first, group := Executed(segs[0].argv, e.input, e.output, r), Joined(pids, r);
    var all := [first] + AwaitAll(group);
    assert all + [] == all;
    EndWaits(segs, first, pids);
    var after := Ends(None, None, u + |group|);
    if !Fails(LastStatus(w, group, r, w.junk(u), Exited(0), u)) {
      WaitsExactly(w, own, segs[1..], after, []);
      AndWaits(segs, first, Eval(w, own, segs[1..], after, []), pids);
    }
  }

  /** The same for a whole line. */
  lemma LineWaitsExactly(w: World, own: Terminal, tokens: seq<string>, t: nat)
    ensures WaitsForAll(Parse(tokens), EvalLine(w, own, tokens, t), [])
  {
    ParseShaped(true, [], [], tokens);
    WaitsExactly(w, own, Parse(tokens), Ends(None, None, t), []);
  }

  /** A pipeline of external commands, from its first stage on. */
  predicate Pipeline(segs: seq<Segment>) {
    && segs != [] && segs[0].argv != [] && !IsBuiltin(segs[0].argv[0])
    && if |segs| == 1 then segs[0].ending == Finish || segs[0].ending == Ampersand
       else segs[0].ending == PipeTo && Pipeline(segs[1..])
  }

  ghost predicate AllSucceeds(w: World) {
    forall t :: w.ok(t)
  }

  lemma PidsFirst(first: Event, rest: seq<Event>)
    requires first.Executed? && first.result.Started?
    ensures Pids(Processes([first] + rest)) == [first.result.pid] + Pids(Processes(rest))
  {
    assert [first][..0] == [];
    ProcessesAppend([first], rest);
  }

  ghost predicate AllStarted(made: seq<Event>) {
    forall i | 0 <= i < |made| :: made[i].Executed? && made[i].result.Started?
  }

  /** The calls `made` run the segments and wait for all processes if `waits`. */
  ghost predicate Runs(events: seq<Event>, made: seq<Event>, pids: seq<Pid>, waits: bool) {
    AllStarted(made) && events == made + if waits then AwaitAll(pids + Pids(Processes(made))) else []
  }

  lemma RunsFirst(first: Event, events: seq<Event>, made: seq<Event>, pids: seq<Pid>, waits: bool)
    requires first.Executed? && first.result.Started? && Runs(events, made, pids + [first.result.pid], waits)
    ensures Runs([first] + events, [first] + made, pids, waits)
  {
    PidsFirst(first, made);
    assert pids + [first.result.pid] + Pids(Processes(made)) == pids + Pids(Processes([first] + made));
    var awaits := if waits then AwaitAll(pids + Pids(Processes([first] + made))) else [];
    assert [first] + (made + awaits) == [first] + made + awaits;
  }

  /** When all calls succeed, every stage of a pipeline of any length is started, and in the
      foreground they are all waited for. */
  lemma {:induction false} PipelineRuns(w: World, own: Terminal, segs: seq<Segment>, ends: Ends, pids: seq<Pid>) returns (made: seq<Event>)
    requires Pipeline(segs) && AllSucceeds(w)
    ensures |made| == |segs| && Runs(Eval(w, own, segs, ends, pids), made, pids, segs[|segs| - 1].ending == Finish)
    decreases |segs|
  {
    RedirectedIff(w, segs[0].redirects, ends);
    var e := Redirected(w, segs[0].redirects, ends).value;
    if |segs| == 1 {
      made := OneRuns(w, own, segs, ends, e, pids);
    } else {
      var first, next := StageRuns(w, own, segs, ends, e, pids);
      var rest := PipelineRuns(w, own, segs[1..], next, pids + [first.result.pid]);
      assert segs[1..][|segs| - 2] == segs[|segs| - 1];
      RunsFirst(first, Eval(w, own, segs[1..], next, pids + [first.result.pid]), rest, pids, segs[|segs| - 1].ending == Finish);
      made := [first] + rest;
    }
  }

  lemma OneRuns(w: World, own: Terminal, segs: seq<Segment>, ends: Ends, e: Ends, pids: seq<Pid>) returns (made: seq<Event>)
    requires Pipeline(segs) && AllSucceeds(w) && |segs| == 1 && Redirected(w, segs[0].redirects, ends) == Some(e)
    ensures |made| == 1 && Runs(Eval(w, own, segs, ends, pids), made, pids, segs[0].ending == Finish)
  {
    var r := Launch(w, own, segs[0].argv, e.input, e.output, e.t).0;
    made := [Executed(segs[0].argv, e.input, e.output, r)];
    assert made[1..] == [] && Pids(Processes(made)) == [r.pid];
  }

  lemma StageRuns(w: World, own: Terminal, segs: seq<Segment>, ends: Ends, e: Ends, pids: seq<Pid>) returns (first: Event, next: Ends)
    requires Pipeline(segs) && AllSucceeds(w) && |segs| > 1 && Redirected(w, segs[0].redirects, ends) == Some(e)
    ensures first.Executed? && first.result.Started?
    ensures Eval(w, own, segs, ends, pids) == [first] + Eval(w, own, segs[1..], next, pids + [first.result.pid])
  {
    var output := if e.output.Some? then e.output else Some(PipeWrite(e.t));
    var (r, u) := Launch(w, own, segs[0].argv, e.input, output, e.t + 1);
    assert w.ok(e.t);
    first, next := Executed(segs[0].argv, e.input, output, r), Ends(Some(PipeRead(e.t)), None, u);
    PipeUnfolds(w, own, segs[0].argv, segs[1..], e, pids, output, r, u);
  }

  // ----- Leaked descriptors -----

  /** `execute` returns at once on an empty command and leaves what it was handed open. */
  function Leaks(e: Event): nat {
    if e.Executed? && e.result.Refused? then Count(e.input) + Count(e.output) else 0
  }

  function LeakCount(events: seq<Event>): nat {
    if events == [] then 0 else Leaks(events[0]) + LeakCount(events[1..])
  }

  lemma {:induction false} LeakCountAppends(a: seq<Event>, b: seq<Event>)
    ensures LeakCount(a + b) == LeakCount(a) + LeakCount(b)
  {
    if a == [] {
      assert a + b == b;
    } else {
      assert (a + b)[1..] == a[1..] + b;
      LeakCountAppends(a[1..], b);
    }
  }

  lemma LeakCountCons(e: Event, rest: seq<Event>)
    ensures LeakCount([e] + rest) == Leaks(e) + LeakCount(rest)
  {
    assert ([e] + rest)[1..] == rest;
  }

  lemma {:induction false} AwaitingLeaksNothing(pids: seq<Pid>)
    ensures LeakCount(AwaitAll(pids)) == 0
    decreases |pids|
  {
    if pids != [] {
      assert AwaitAll(pids)[1..] == AwaitAll(pids[1..]);
      AwaitingLeaksNothing(pids[1..]);
    }
  }

  lemma {:induction false} LeaksOfOne(w: World, own: Terminal, argv: seq<string>, input: Option<Handle>, output: Option<Handle>, t: nat,
                                      after: seq<Event>)
    ensures var e := Executed(argv, input, output, Launch(w, own, argv, input, output, t).0);
            LeakCount([e] + after) == LeakCount(after) + if argv == [] then Count(input) + Count(output) else 0
  {
    var e := Executed(argv, input, output, Launch(w, own, argv, input, output, t).0);
    assert ([e] + after)[1..] == after;
  }

  /** Some run of the segments reaches a segment without a command word that holds an open
      file: a redirection, or an end of a pipe. */
  predicate CanLeak(segs: seq<Segment>, piped: bool) {
    segs != [] &&
    var s := segs[0];
    if s.ending == NoFile then false
    else if s.argv == [] then
      piped || s.redirects != [] || s.ending == PipeTo || (s.ending == AndThen && CanLeak(segs[1..], false))
    else
      || (s.ending == PipeTo && !IsBuiltin(s.argv[0]) && CanLeak(segs[1..], true))
      || (s.ending == AndThen && CanLeak(segs[1..], false))
  }

  /** The ends a segment has hold no open file only if it was given none and redirects nothing. */
  lemma {:induction false} RedirectedHolds(w: World, redirects: seq<Redirect>, ends: Ends)
    requires Redirected(w, redirects, ends).Some?
    ensures var e := Redirected(w, redirects, ends).value;
            Count(e.input) + Count(e.output) == 0 <==> redirects == [] && Count(ends.input) + Count(ends.output) == 0
    decreases |redirects|
  {
    if redirects != [] {
      RedirectedHolds(w, redirects[1..], AfterFirst(redirects, ends));
    }
  }

  /** What the segment with ends `e` itself leaks if it is executed. */
  function OwnLeaks(argv: seq<string>, piping: bool, e: Ends): nat {
    if argv != [] then 0 else Count(e.input) + if piping then 1 else Count(e.output)
  }

  lemma LeaksOfLast(w: World, own: Terminal, argv: seq<string>, ending: Ending, rest: seq<Segment>, e: Ends, pids: seq<Pid>)
    requires ending == Finish || ending == Ampersand || ending == NoFile
    ensures LeakCount(EvalEnding(w, own, argv, ending, rest, e, pids)) == if ending == NoFile then 0 else OwnLeaks(argv, false, e)
  {
    var r := Launch(w, own, argv, e.input, e.output, e.t).0;
    var event := Executed(argv, e.input, e.output, r);
    AwaitingLeaksNothing(pids);
    AwaitingLeaksNothing(Joined(pids, r));
    LeaksOfOne(w, own, argv, e.input, e.output, e.t, AwaitAll(Joined(pids, r)));
    LeaksOfOne(w, own, argv, e.input, e.output, e.t, []);
    assert [event] + [] == [event];
  }

  /** The ends the next segment of a pipeline is given, if the stage was started. */
  function NextStage(w: World, own: Terminal, argv: seq<string>, e: Ends): Option<(Pid, Ends)> {
    var output := if e.output.Some? then e.output else Some(PipeWrite(e.t));
    var (r, t) := Launch(w, own, argv, e.input, output, e.t + 1);
    if w.ok(e.t) && r.Started? then Some((r.pid, Ends(Some(PipeRead(e.t)), None, t))) else None
  }

  lemma LeaksOfStage(w: World, own: Terminal, argv: seq<string>, rest: seq<Segment>, e: Ends, pids: seq<Pid>)
    ensures LeakCount(EvalEnding(w, own, argv, PipeTo, rest, e, pids)) ==
            (if w.ok(e.t) then OwnLeaks(argv, true, e) else 0)
            + match NextStage(w, own, argv, e) case None => 0 case Some(next) => LeakCount(Eval(w, own, rest, next.1, pids + [next.0]))
  {
    var output := if e.output.Some? then e.output else Some(PipeWrite(e.t));
    AwaitingLeaksNothing(pids);
    match NextStage(w, own, argv, e)
    case None => LeaksOfOne(w, own, argv, e.input, output, e.t + 1, AwaitAll(pids));
    case Some(next) => LeaksOfOne(w, own, argv, e.input, output, e.t + 1, Eval(w, own, rest, next.1, pids + [next.0]));
  }

  /** The tick at which the segment behind `&&` starts, if it does. */
  function NextInList(w: World, own: Terminal, argv: seq<string>, e: Ends, pids: seq<Pid>): Option<nat> {
    var (r, t) := Launch(w, own, argv, e.input, e.output, e.t);
    var group := Joined(pids, r);
    if Fails(LastStatus(w, group, r, w.junk(t), Exited(0), t)) then None else Some(t + |group|)
  }

  lemma LeaksOfAnd(w: World, own: Terminal, argv: seq<string>, rest: seq<Segment>, e: Ends, pids: seq<Pid>)
    ensures LeakCount(EvalEnding(w, own, argv, AndThen, rest, e, pids)) ==
            OwnLeaks(argv, false, e)
            + match NextInList(w, own, argv, e, pids) case None => 0 case Some(t) => LeakCount(Eval(w, own, rest, Ends(None, None, t), []))
  {
    var (r, t) := Launch(w, own, argv, e.input, e.output, e.t);
    var event := Executed(argv, e.input, e.output, r);
    var group := Joined(pids, r);
    var after := match NextInList(w, own, argv, e, pids) case None => [] case Some(t) => Eval(w, own, rest, Ends(None, None, t), []);
    AwaitingLeaksNothing(group);
    LeakCountAppends(AwaitAll(group), after);
    LeaksOfOne(w, own, argv, e.input, e.output, e.t, AwaitAll(group) + after);
    assert [event] + AwaitAll(group) + after == [event] + (AwaitAll(group) + after);
  }

  /** No run leaks unless `CanLeak` says so. */
  lemma {:induction false} LeaksOnlyIf(w: World, own: Terminal, segs: seq<Segment>, ends: Ends, pids: seq<Pid>)
    requires !CanLeak(segs, ends.input.Some?) && ends.output.None?
    ensures LeakCount(Eval(w, own, segs, ends, pids)) == 0
    decreases |segs|
  {
    AwaitingLeaksNothing(pids);
    if segs != [] && Redirected(w, segs[0].redirects, ends).Some? {
      var s, rest := segs[0], segs[1..];
      RedirectedHolds(w, s.redirects, ends);
      var e := Redirected(w, s.redirects, ends).value;
      if s.ending == PipeTo {
        LeaksOfStage(w, own, s.argv, rest, e, pids);
        match NextStage(w, own, s.argv, e)
        case None =>
        case Some(next) => LeaksOnlyIf(w, own, rest, next.1, pids + [next.0]);
      } else if s.ending == AndThen {
        LeaksOfAnd(w, own, s.argv, rest, e, pids);
        match NextInList(w, own, s.argv, e, pids)
        case None =>
        case Some(t) => LeaksOnlyIf(w, own, rest, Ends(None, None, t), []);
      } else {
        LeaksOfLast(w, own, s.argv, s.ending, rest, e, pids);
      }
    }
  }

  /** A world in which every call succeeds and every child exits with 0. */
  function Sunny(): World {
    World(_ => true, t => t + 2, _ => Delivered(Exited(0)), _ => Exited(0))
  }

  lemma {:induction false} SunnyStatus(pids: seq<Pid>, r: Result, t: nat)
    ensures LastStatus(Sunny(), pids, r, Exited(0), Exited(0), t) == Exited(0)
    decreases |pids|
  {
    if pids != [] {
      SunnyStatus(pids[1..], r, t + 1);
    }
  }

  /** Where `CanLeak` says so, the world in which everything succeeds leaks. */
  lemma {:induction false} LeaksIf(own: Terminal, segs: seq<Segment>, ends: Ends, pids: seq<Pid>)
    requires CanLeak(segs, ends.input.Some?) && ends.output.None?
    ensures LeakCount(Eval(Sunny(), own, segs, ends, pids)) > 0
    decreases |segs|
  {
    var w, s, rest := Sunny(), segs[0], segs[1..];
    RedirectedIff(w, s.redirects, ends);
    RedirectedHolds(w, s.redirects, ends);
    var e := Redirected(w, s.redirects, ends).value;
    if s.ending == PipeTo {
      LeaksOfStage(w, own, s.argv, rest, e, pids);
      if s.argv != [] {
        var next := NextStage(w, own, s.argv, e).value;
        LeaksIf(own, rest, next.1, pids + [next.0]);
      }
    } else if s.ending == AndThen {
      LeaksOfAnd(w, own, s.argv, rest, e, pids);
      var (r, t) := Launch(w, own, s.argv, e.input, e.output, e.t);
      SunnyStatus(Joined(pids, r), r, t);
      if CanLeak(rest, false) {
        LeaksIf(own, rest, Ends(None, None, NextInList(w, own, s.argv, e, pids).value), []);
      }
    } else {
      LeaksOfLast(w, own, s.argv, s.ending, rest, e, pids);
    }
  }

  /** A line leaks a descriptor in some environment exactly when it has a reachable segment
      without a command word that holds a redirection or an end of a pipe. */
  lemma LeakFreeExactly(own: Terminal, tokens: seq<string>, t: nat)
    ensures (forall w: World :: LeakCount(EvalLine(w, own, tokens, t)) == 0) <==> !CanLeak(Parse(tokens), false)
  {
    if CanLeak(Parse(tokens), false) {
      LeaksIf(own, Parse(tokens), Ends(None, None, t), []);
      assert LeakCount(EvalLine(Sunny(), own, tokens, t)) > 0;
    } else {
      forall w: World
        ensures LeakCount(EvalLine(w, own, tokens, t)) == 0
      {
        LeaksOnlyIf(w, own, Parse(tokens), Ends(None, None, t), []);
      }
    }
  }

  // ----- One ending at a time -----

  /** Events made and events still due add up. */
  lemma Advance(before: seq<Event>, made: seq<Event>, rest: seq<Event>)
    ensures before + made + rest == before + (made + rest)
  {
  }

  /** The calls of a line's last segment: the one that runs it, then those still due. */
  lemma LastUnfolds(w: World, own: Terminal, argv: seq<string>, ending: Ending, e: Ends, pids: seq<Pid>, r: Result, u: nat)
    requires ending == Finish || ending == Ampersand
    requires (r, u) == Launch(w, own, argv, e.input, e.output, e.t)
    ensures var event := Executed(argv, e.input, e.output, r);
            var rest := if ending == Finish then AwaitAll(Joined(pids, r)) else [];
            var due := EvalEnding(w, own, argv, ending, [], e, pids);
            due == [event] + rest && LeakCount(due) == Leaks(event) + LeakCount(rest)
  {
    var event := Executed(argv, e.input, e.output, r);
    assert [event] + [] == [event];
    LeakCountCons(event, if ending == Finish then AwaitAll(Joined(pids, r)) else []);
  }

  /** The calls of a stage that is piped on, once its pipe is made. */
  lemma PipeUnfolds(w: World, own: Terminal, argv: seq<string>, segs: seq<Segment>, e: Ends, pids: seq<Pid>,
                    output: Option<Handle>, r: Result, u: nat)
    requires w.ok(e.t) && output == if e.output.Some? then e.output else Some(PipeWrite(e.t))
    requires (r, u) == Launch(w, own, argv, e.input, output, e.t + 1)
    ensures var event := Executed(argv, e.input, output, r);
            var rest := if r.Started? then Eval(w, own, segs, Ends(Some(PipeRead(e.t)), None, u), Joined(pids, r)) else AwaitAll(pids);
            var due := EvalEnding(w, own, argv, PipeTo, segs, e, pids);
            due == [event] + rest && LeakCount(due) == Leaks(event) + LeakCount(rest)
  {
    LeakCountCons(Executed(argv, e.input, output, r),
                  if r.Started? then Eval(w, own, segs, Ends(Some(PipeRead(e.t)), None, u), Joined(pids, r)) else AwaitAll(pids));
  }

  /** A redirection in front of the segment being read: the rest goes on with its file. */
  lemma RedirectUnfolds(w: World, own: Terminal, redirect: Redirect, segs: seq<Segment>, e: Ends, pids: seq<Pid>)
    requires segs != []
    ensures Eval(w, own, Prepend([redirect], segs), e, pids) ==
            if w.ok(e.t) then Eval(w, own, segs, AfterFirst([redirect], e), pids) else AwaitAll(pids)
  {
    var redirects := [redirect] + segs[0].redirects;
    assert redirects[1..] == segs[0].redirects;
    assert Prepend([redirect], segs)[1..] == segs[1..];
  }

  /** What follows the waits at `&&`, given the status they left. */
  function AfterAnd(w: World, own: Terminal, segs: seq<Segment>, status: Status, t: nat): seq<Event> {
    if Fails(status) then [] else Eval(w, own, segs, Ends(None, None, t), [])
  }

  /** The calls up to and including the waits at `&&`, and those of what follows it. */
  lemma AndUnfolds(w: World, own: Terminal, argv: seq<string>, segs: seq<Segment>, e: Ends, pids: seq<Pid>,
                   r: Result, u: nat, status: Status)
    requires (r, u) == Launch(w, own, argv, e.input, e.output, e.t)
    requires status == LastStatus(w, Joined(pids, r), r, w.junk(u), Exited(0), u)
    ensures var made := [Executed(argv, e.input, e.output, r)] + AwaitAll(Joined(pids, r));
            var rest := AfterAnd(w, own, segs, status, u + |Joined(pids, r)|);
            var due := EvalEnding(w, own, argv, AndThen, segs, e, pids);
            due == made + rest && LeakCount(due) == Leaks(made[0]) + LeakCount(rest)
  {
    var event := Executed(argv, e.input, e.output, r);
    var group := Joined(pids, r);
    var rest := AfterAnd(w, own, segs, status, u + |group|);
    assert [event] + AwaitAll(group) + rest == [event] + (AwaitAll(group) + rest);
    LeakCountCons(event, AwaitAll(group) + rest);
    LeakCountAppends(AwaitAll(group), rest);
    AwaitingLeaksNothing(group);
  }
}
