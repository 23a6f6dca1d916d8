/** The two models of the mini-shell's waiting agree: the lines of the state machine in which
    children end and the SIGCHLD handler interferes (module Reaping) are the lines of the
    evaluator (module Evaluator), in a world whose `waitpid` returns what the machine's returns. */
module LineReaping {
  import opened Options
  import opened CommandLine
  import opened Evaluator
  import opened Reaping

  /** What the evaluator has left to do: the segments still to run, with the ends of the first;
      or those behind the `&&` whose loop runs, with what its last stage did and the tick of its
      next wait; or nothing but waiting. */
  datatype Plan =
    | RunOn(segs: seq<Segment>, ends: Ends)
    | BehindAnd(segs: seq<Segment>, r: Result, t: nat)
    | Closing

  /** The calls still due in a state of the machine. */
  function Due(w: World, own: Terminal, s: State, plan: Plan): seq<Event> {
    match s.phase
    case Prompt => []
    case Stage(_) => if plan.RunOn? then Eval(w, own, plan.segs, plan.ends, s.pids) else []
    case AndWait(i, _, status, last, _) => if plan.BehindAnd? && i <= |s.pids| then DueAtAnd(w, own, s.pids[i..], status, last, plan) else []
    case FinalWait(i) => if i <= |s.pids| then AwaitAll(s.pids[i..]) else []
  }

  function DueAtAnd(w: World, own: Terminal, pids: seq<Pid>, status: Status, last: Status, plan: Plan): seq<Event>
    requires plan.BehindAnd?
  {
    AwaitAll(pids) + AfterAnd(w, own, plan.segs, LastStatus(w, pids, plan.r, status, last, plan.t), plan.t + |pids|)
  }

  predicate Matches(s: State, plan: Plan) {
    match s.phase
    case Prompt => true
    case Stage(endings) => plan.RunOn? && endings == Endings(plan.segs)
    case AndWait(i, forked, _, _, endings) =>
      && plan.BehindAnd? && endings == Endings(plan.segs) && i <= |s.pids|
      && (forked <==> plan.r.Started?) && (forked ==> s.pids != [] && plan.r.pid == s.pids[|s.pids| - 1])
    case FinalWait(i) => i <= |s.pids|
  }

  /** The `execute` call for the first segment: its ends, its output, and its outcome. */
  function Launched(w: World, own: Terminal, s: Segment, e: Ends): (Event, nat) {
    var output := if s.ending != PipeTo || e.output.Some? then e.output else Some(PipeWrite(e.t));
    var (r, u) := Launch(w, own, s.argv, e.input, output, if s.ending == PipeTo then e.t + 1 else e.t);
    (Executed(s.argv, e.input, output, r), u)
  }

  function Child(e: Event): Option<Pid> {
    if e.Executed? && e.result.Started? then Some(e.result.pid) else None
  }

  function Returned(collected: Option<Status>): Wait {
    match collected
    case Some(status) => Delivered(status)
    case None => NoChild
  }

  /** The step is what happens in the world w: a redirection or a pipe fails, or the segment is
      executed with that outcome; and a wait of the `&&` loop returns what it returns there. */
  predicate Agrees(w: World, own: Terminal, s: State, plan: Plan, step: Step) {
    match step
    case StartLine(_) => false
    case Execute(child, junk) =>
      && plan.RunOn? && plan.segs != []
      && var e := Redirected(w, plan.segs[0].redirects, plan.ends);
         && e.Some? && (plan.segs[0].ending == PipeTo ==> w.ok(e.value.t))
         && var (event, u) := Launched(w, own, plan.segs[0], e.value);
            child == Child(event) && (plan.segs[0].ending == AndThen ==> junk == w.junk(u))
    case Abort =>
      && plan.RunOn? && plan.segs != []
      && var e := Redirected(w, plan.segs[0].redirects, plan.ends);
         e == None || plan.segs[0].ending == NoFile || (plan.segs[0].ending == PipeTo && !w.ok(e.value.t))
    case Wait =>
      plan.BehindAnd? && NextIndex(s).Some? ==>
        w.wait(plan.t) == Returned(Collect(s, NextIndex(s).value).1)
    case _ => true
  }

  /** The calls a step makes. */
  function Made(w: World, own: Terminal, s: State, plan: Plan, step: Step): seq<Event> {
    match step
    case Execute(_, _) =>
      if plan.RunOn? && plan.segs != [] && Redirected(w, plan.segs[0].redirects, plan.ends).Some? then
        [Launched(w, own, plan.segs[0], Redirected(w, plan.segs[0].redirects, plan.ends).value).0]
      else []
    case Wait => if NextIndex(s).Some? then [Awaited(s.pids[NextIndex(s).value])] else []
    case _ => []
  }

  function NextPlan(w: World, own: Terminal, s: State, plan: Plan, step: Step): Plan {
    match step
    case Execute(_, _) =>
      if plan.RunOn? && plan.segs != [] && Redirected(w, plan.segs[0].redirects, plan.ends).Some? then
        var e := Redirected(w, plan.segs[0].redirects, plan.ends).value;
        var (event, u) := Launched(w, own, plan.segs[0], e);
        match plan.segs[0].ending
        case PipeTo => if Child(event).Some? then RunOn(plan.segs[1..], Ends(Some(PipeRead(e.t)), None, u)) else Closing
        case AndThen => BehindAnd(plan.segs[1..], event.result, u)
        case _ => Closing
      else Closing
    case Wait => if plan.BehindAnd? then plan.(t := plan.t + 1) else plan
    case Decide => if plan.BehindAnd? then RunOn(plan.segs, Ends(None, None, plan.t)) else plan
    case _ => plan
  }

  /** The step makes the next of the calls due. */
  predicate Evaluated(w: World, own: Terminal, s: State, plan: Plan, step: Step)
    requires Enabled(s, step)
  {
    var t, next := Apply(s, step), NextPlan(w, own, s, plan, step);
    Matches(t, next) && Due(w, own, s, plan) == Made(w, own, s, plan, step) + Due(w, own, t, next)
  }

  lemma LastIsEvaluated(w: World, own: Terminal, seg: Segment, rest: seq<Segment>, e: Ends, pids: seq<Pid>, event: Event, u: nat)
    requires seg.ending == Finish || seg.ending == Ampersand
    requires (event, u) == Launched(w, own, seg, e)
    ensures EvalEnding(w, own, seg.argv, seg.ending, rest, e, pids) ==
            [event] + if seg.ending == Finish then AwaitAll(Joined(pids, event.result)) else []
  {
    assert [event] + [] == [event];
  }

  lemma PipeIsEvaluated(w: World, own: Terminal, s: State, plan: Plan, child: Option<Pid>, junk: Status)
    requires Enabled(s, Execute(child, junk)) && Matches(s, plan) && Agrees(w, own, s, plan, Execute(child, junk))
    requires plan.segs[0].ending == PipeTo
    ensures Evaluated(w, own, s, plan, Execute(child, junk))
  {
    var seg, rest := plan.segs[0], plan.segs[1..];
    var e := Redirected(w, seg.redirects, plan.ends).value;
    var (event, u) := Launched(w, own, seg, e);
    PipeUnfolds(w, own, seg.argv, rest, e, s.pids, event.output, event.result, u);
    assert s.pids[0..] == s.pids;
  }

  /** What is due behind an `&&` when its loop starts. */
  lemma AndDue(w: World, own: Terminal, seg: Segment, rest: seq<Segment>, e: Ends, pids: seq<Pid>, event: Event, u: nat)
    requires seg.ending == AndThen && (event, u) == Launched(w, own, seg, e)
    ensures EvalEnding(w, own, seg.argv, AndThen, rest, e, pids) ==
            [event] + DueAtAnd(w, own, Joined(pids, event.result), w.junk(u), Exited(0), BehindAnd(rest, event.result, u))
  {
    var group := Joined(pids, event.result);
    var status := LastStatus(w, group, event.result, w.junk(u), Exited(0), u);
    AndUnfolds(w, own, seg.argv, rest, e, pids, event.result, u, status);
    var after := AfterAnd(w, own, rest, status, u + |group|);
    assert [event] + AwaitAll(group) + after == [event] + (AwaitAll(group) + after);
  }

  /** The state in which it starts. */
  lemma AndStarts(w: World, own: Terminal, s: State, plan: Plan, child: Option<Pid>, junk: Status)
    requires Enabled(s, Execute(child, junk)) && Matches(s, plan) && Agrees(w, own, s, plan, Execute(child, junk))
    requires plan.segs[0].ending == AndThen
    ensures var e := Redirected(w, plan.segs[0].redirects, plan.ends).value;
            var (event, u) := Launched(w, own, plan.segs[0], e);
            var t := Apply(s, Execute(child, junk));
            && t.pids == Joined(s.pids, event.result) && junk == w.junk(u)
            && t.phase == AndWait(0, event.result.Started?, junk, Exited(0), Endings(plan.segs[1..]))
  {
  }

  lemma AndIsEvaluated(w: World, own: Terminal, s: State, plan: Plan, child: Option<Pid>, junk: Status)
    requires Enabled(s, Execute(child, junk)) && Matches(s, plan) && Agrees(w, own, s, plan, Execute(child, junk))
    requires plan.segs[0].ending == AndThen
    ensures Evaluated(w, own, s, plan, Execute(child, junk))
  {
    var e := Redirected(w, plan.segs[0].redirects, plan.ends).value;
    var (event, u) := Launched(w, own, plan.segs[0], e);
    AndStarts(w, own, s, plan, child, junk);
    AndDue(w, own, plan.segs[0], plan.segs[1..], e, s.pids, event, u);
    assert Joined(s.pids, event.result)[0..] == Joined(s.pids, event.result);
  }

  lemma EndIsEvaluated(w: World, own: Terminal, s: State, plan: Plan, child: Option<Pid>, junk: Status)
    requires Enabled(s, Execute(child, junk)) && Matches(s, plan) && Agrees(w, own, s, plan, Execute(child, junk))
    requires plan.segs[0].ending == Finish || plan.segs[0].ending == Ampersand
    ensures Evaluated(w, own, s, plan, Execute(child, junk))
  {
    var seg, rest := plan.segs[0], plan.segs[1..];
    var e := Redirected(w, seg.redirects, plan.ends).value;
    var (event, u) := Launched(w, own, seg, e);
    LastIsEvaluated(w, own, seg, rest, e, s.pids, event, u);
    assert Joined(s.pids, event.result)[0..] == Joined(s.pids, event.result);
  }

  lemma NextAwaited(pids: seq<Pid>, i: nat)
    requires i < |pids|
    ensures pids[i..][1..] == pids[i + 1..] && AwaitAll(pids[i..]) == [Awaited(pids[i])] + AwaitAll(pids[i + 1..])
  {
    assert pids[i..] == [pids[i]] + pids[i + 1..];
  }

  /** One wait of the `&&` loop, with its effect on the two status variables. */
  lemma DueMovesOn(w: World, own: Terminal, pids: seq<Pid>, i: nat, status: Status, last: Status, plan: Plan)
    requires plan.BehindAnd? && i < |pids|
    ensures var now := if w.wait(plan.t).Delivered? then w.wait(plan.t).status else status;
            var latest := if IsPid(plan.r, pids[i]) then now else last;
            DueAtAnd(w, own, pids[i..], status, last, plan) ==
            [Awaited(pids[i])] + DueAtAnd(w, own, pids[i + 1..], now, latest, plan.(t := plan.t + 1))
  {
    NextAwaited(pids, i);
    assert plan.t + |pids[i..]| == plan.t + 1 + |pids[i + 1..]|;
  }

  lemma AndWaitIsEvaluated(w: World, own: Terminal, s: State, plan: Plan)
    requires Enabled(s, Wait) && s.phase.AndWait? && Matches(s, plan) && Agrees(w, own, s, plan, Wait)
    ensures Evaluated(w, own, s, plan, Wait)
  {
    DueMovesOn(w, own, s.pids, s.phase.i, s.phase.status, s.phase.last, plan);
  }

  lemma FinalWaitIsEvaluated(w: World, own: Terminal, s: State, plan: Plan)
    requires Enabled(s, Wait) && s.phase.FinalWait? && Matches(s, plan)
    ensures Evaluated(w, own, s, plan, Wait)
  {
    NextAwaited(s.pids, s.phase.i);
  }

  lemma DecideIsEvaluated(w: World, own: Terminal, s: State, plan: Plan)
    requires Enabled(s, Decide) && Matches(s, plan)
    ensures Evaluated(w, own, s, plan, Decide)
  {
    assert s.pids[|s.pids|..] == [];
    assert AwaitAll([]) == [];
  }

  lemma AbortIsEvaluated(w: World, own: Terminal, s: State, plan: Plan)
    requires Enabled(s, Abort) && Matches(s, plan) && Agrees(w, own, s, plan, Abort)
    ensures Evaluated(w, own, s, plan, Abort)
  {
    assert s.pids[0..] == s.pids;
    assert Eval(w, own, plan.segs, plan.ends, s.pids) == AwaitAll(s.pids);
  }

  /** Every step of the machine that agrees with the world makes the next of the calls due, or,
      if it is a child's, the handler's or a silent one, leaves them as they are. */
  lemma StepIsEvaluated(w: World, own: Terminal, s: State, plan: Plan, step: Step)
    requires Enabled(s, step) && Matches(s, plan) && Agrees(w, own, s, plan, step)
    ensures Evaluated(w, own, s, plan, step)
  {
    match step
    case Execute(child, junk) =>
      if plan.segs[0].ending == PipeTo {
        PipeIsEvaluated(w, own, s, plan, child, junk);
      } else if plan.segs[0].ending == AndThen {
        AndIsEvaluated(w, own, s, plan, child, junk);
      } else {
        EndIsEvaluated(w, own, s, plan, child, junk);
      }
    case Wait =>
      if s.phase.AndWait? {
        AndWaitIsEvaluated(w, own, s, plan);
      } else {
        FinalWaitIsEvaluated(w, own, s, plan);
      }
    case Decide => DecideIsEvaluated(w, own, s, plan);
    case Abort => AbortIsEvaluated(w, own, s, plan);
    case _ => QuietIsEvaluated(w, own, s, plan, step);
  }

  lemma QuietIsEvaluated(w: World, own: Terminal, s: State, plan: Plan, step: Step)
    requires Enabled(s, step) && Matches(s, plan)
    requires step.Exit? || step.EnterHandler? || step.HandlerReap? || step.FindNone? || step.LeaveHandler? || step.Return?
    ensures Evaluated(w, own, s, plan, step)
  {
    if step == Return {
      assert s.pids[|s.pids|..] == [] && AwaitAll([]) == [];
    }
  }

  /** A stretch of a run within one line, and the plan at each of its states. */
  ghost predicate Stretch(w: World, own: Terminal, states: seq<State>, steps: seq<Step>, plans: seq<Plan>) {
    && |states| == |plans| == |steps| + 1 && Matches(states[0], plans[0])
    && forall i | 0 <= i < |steps| ::
         && Enabled(states[i], steps[i]) && Agrees(w, own, states[i], plans[i], steps[i])
         && states[i + 1] == Apply(states[i], steps[i]) && plans[i + 1] == NextPlan(w, own, states[i], plans[i], steps[i])
  }

  function MadeIn(w: World, own: Terminal, states: seq<State>, steps: seq<Step>, plans: seq<Plan>, n: nat): seq<Event>
    requires n <= |steps| && |states| == |plans| == |steps| + 1
  {
    if n == 0 then [] else MadeIn(w, own, states, steps, plans, n - 1) + Made(w, own, states[n - 1], plans[n - 1], steps[n - 1])
  }

  lemma MakesOneMore(w: World, own: Terminal, states: seq<State>, steps: seq<Step>, plans: seq<Plan>, n: nat)
    requires 0 < n <= |steps| && |states| == |plans| == |steps| + 1
    ensures forall due :: MadeIn(w, own, states, steps, plans, n) + due ==
                          MadeIn(w, own, states, steps, plans, n - 1) + (Made(w, own, states[n - 1], plans[n - 1], steps[n - 1]) + due)
  {
  }

  lemma {:induction false} StretchIsEvaluated(w: World, own: Terminal, states: seq<State>, steps: seq<Step>, plans: seq<Plan>, n: nat)
    requires Stretch(w, own, states, steps, plans) && n <= |steps|
    ensures Matches(states[n], plans[n])
    ensures Due(w, own, states[0], plans[0]) == MadeIn(w, own, states, steps, plans, n) + Due(w, own, states[n], plans[n])
  {
    if n > 0 {
      StretchIsEvaluated(w, own, states, steps, plans, n - 1);
      StepIsEvaluated(w, own, states[n - 1], plans[n - 1], steps[n - 1]);
      MakesOneMore(w, own, states, steps, plans, n);
    }
  }

  /** So in every interleaving the calls a line makes, from its start until the prompt is back,
      are exactly the evaluator's for its tokens: the waits that race with the handler decide
      the `&&`s as its own waits do. */
  lemma {:induction false} LineIsEvaluated(w: World, own: Terminal, tokens: seq<string>, tick: nat, states: seq<State>, steps: seq<Step>, plans: seq<Plan>)
    requires Stretch(w, own, states, steps, plans)
    requires states[0].phase == Stage(Endings(Parse(tokens))) && states[0].pids == []
    requires plans[0] == RunOn(Parse(tokens), Ends(None, None, tick))
    requires states[|steps|].phase == Prompt
    ensures MadeIn(w, own, states, steps, plans, |steps|) == EvalLine(w, own, tokens, tick)
  {
    StretchIsEvaluated(w, own, states, steps, plans, |steps|);
  }
}
