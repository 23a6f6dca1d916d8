/** The counters under a mutex (ch08/ex05.c, ch08/exercise.c): any number of threads, each adding
    one a fixed number of times by a separate read and write, and possibly cancelled at a
    cancellation point, whose cleanup handler releases the mutex. */
module Counter {
  import opened Options
  import opened Sums

  /** Between iterations with k done, or inside the mutex in the iteration after k. `Printing`
      stands for the output and the `sleep` behind the write, which are cancellation points. */
  datatype Thread =
    | Outside(k: nat) | Locked(k: nat) | Loaded(k: nat, temp: int) | Printing(k: nat)
    | Cancelled(k: nat)

  datatype State = State(counter: int, owner: Option<nat>, threads: seq<Thread>)

  datatype Step = Run(t: nat) | Cancel(t: nat)

  predicate Init(s: State) {
    s == State(0, None, s.threads) && forall t | 0 <= t < |s.threads| :: s.threads[t] == Outside(0)
  }

  /** `loops` is the number of iterations of each thread. */
  predicate Enabled(loops: nat, s: State, step: Step) {
    && step.t < |s.threads|
    && match step
       case Run(t) =>
         if s.threads[t].Outside? then s.threads[t].k < loops && s.owner == None else !s.threads[t].Cancelled?
       case Cancel(t) => s.threads[t].Printing?
  }

  function Apply(s: State, step: Step): State
    requires step.t < |s.threads|
  {
    var t := step.t;
    if step.Cancel? then s.(owner := None, threads := s.threads[t := Cancelled(s.threads[t].k + 1)])
    else
      match s.threads[t]
      case Outside(k) => s.(owner := Some(t), threads := s.threads[t := Locked(k)])
      case Locked(k) => s.(threads := s.threads[t := Loaded(k, s.counter)])
      case Loaded(k, temp) => s.(counter := temp + 1, threads := s.threads[t := Printing(k)])
      case Printing(k) => s.(owner := None, threads := s.threads[t := Outside(k + 1)])
      case Cancelled(k) => s
  }

  predicate IsRun(loops: nat, run: seq<State>, steps: seq<Step>) {
    && |run| == |steps| + 1 && Init(run[0])
    && forall i | 0 <= i < |steps| :: Enabled(loops, run[i], steps[i]) && run[i + 1] == Apply(run[i], steps[i])
  }

  // ----- What the threads have done -----

  /** The increments a thread has written. */
  function Written(t: Thread): nat {
    match t
    case Outside(k) => k
    case Locked(k) => k
    case Loaded(k, _) => k
    case Printing(k) => k + 1
    case Cancelled(k) => k
  }

  /** The critical sections a thread has completed. */
  function Completed(t: Thread): nat {
    t.k
  }

  /** The steps a thread has made. */
  function Made(t: Thread): nat {
    match t
    case Outside(k) => 4 * k
    case Locked(k) => 4 * k + 1
    case Loaded(k, _) => 4 * k + 2
    case Printing(k) => 4 * k + 3
    case Cancelled(k) => 4 * k
  }

  function All(f: Thread -> nat, threads: seq<Thread>): (xs: seq<nat>)
    ensures |xs| == |threads| && forall i | 0 <= i < |xs| :: xs[i] == f(threads[i])
  {
    seq(|threads|, i requires 0 <= i < |threads| => f(threads[i]))
  }

  lemma AllUpdate(f: Thread -> nat, threads: seq<Thread>, i: nat, t: Thread)
    requires i < |threads|
    ensures Sum(All(f, threads[i := t])) == Sum(All(f, threads)) - f(threads[i]) + f(t)
  {
    SumUpdate(All(f, threads), i, f(t));
    assert All(f, threads[i := t]) == All(f, threads)[i := f(t)];
  }

  // ----- The invariant -----

  predicate Inside(t: Thread) {
    t.Locked? || t.Loaded? || t.Printing?
  }

  predicate ThreadsSound(loops: nat, s: State) {
    && (s.owner.Some? ==> s.owner.value < |s.threads|)
    && forall t | 0 <= t < |s.threads| ::
         && (Inside(s.threads[t]) <==> s.owner == Some(t))
         && (s.threads[t].Loaded? ==> s.threads[t].temp == s.counter)
         && s.threads[t].k <= loops && (Inside(s.threads[t]) ==> s.threads[t].k < loops)
  }

  predicate Inv(loops: nat, s: State) {
    ThreadsSound(loops, s) && s.counter == Sum(All(Written, s.threads))
  }

  lemma Keeps(loops: nat, s: State, step: Step)
    requires Inv(loops, s) && Enabled(loops, s, step)
    ensures Inv(loops, Apply(s, step))
  {
    AllUpdate(Written, s.threads, step.t, Apply(s, step).threads[step.t]);
    assert Apply(s, step).threads == s.threads[step.t := Apply(s, step).threads[step.t]];
  }

  lemma {:induction false} Invariant(loops: nat, run: seq<State>, steps: seq<Step>, i: nat)
    requires IsRun(loops, run, steps) && i < |run|
    ensures Inv(loops, run[i]) && |run[i].threads| == |run[0].threads|
  {
    if i == 0 {
      SumOfZeros(All(Written, run[0].threads));
    } else {
      Invariant(loops, run, steps, i - 1);
      Keeps(loops, run[i - 1], steps[i - 1]);
    }
  }

  // ----- The properties -----

  /** Whenever the mutex is free, the counter is the number of completed critical sections:
      no increment is lost in any interleaving, whichever threads were cancelled. */
  lemma NoLostUpdate(loops: nat, run: seq<State>, steps: seq<Step>, i: nat)
    requires IsRun(loops, run, steps) && i < |run| && run[i].owner == None
    ensures run[i].counter == Sum(All(Completed, run[i].threads))
  {
    Invariant(loops, run, steps, i);
    assert All(Completed, run[i].threads) == All(Written, run[i].threads);
  }

  predicate Ended(loops: nat, t: Thread) {
    t.Cancelled? || t == Outside(loops)
  }

  /** Not even a cancellation leaves the mutex locked: until all threads have ended, one of them
      can move. */
  lemma NoDeadlock(loops: nat, run: seq<State>, steps: seq<Step>, i: nat)
    requires IsRun(loops, run, steps) && i < |run|
    ensures (exists t :: Enabled(loops, run[i], Run(t))) <==> exists t | 0 <= t < |run[i].threads| :: !Ended(loops, run[i].threads[t])
  {
    Invariant(loops, run, steps, i);
    var s := run[i];
    if t :| 0 <= t < |s.threads| && !Ended(loops, s.threads[t]) {
      var next := if s.owner.Some? then s.owner.value else t;
      assert Enabled(loops, s, Run(next));
    }
    if t: nat :| Enabled(loops, s, Run(t)) {
      assert !Ended(loops, s.threads[t]);
    }
  }

  lemma {:induction false} StepsMade(loops: nat, run: seq<State>, steps: seq<Step>, i: nat)
    requires IsRun(loops, run, steps) && i < |run| && forall j | 0 <= j < i :: steps[j].Run?
    ensures Sum(All(Made, run[i].threads)) == i
    ensures forall t | 0 <= t < |run[i].threads| :: !run[i].threads[t].Cancelled?
  {
    if i == 0 {
      SumOfZeros(All(Made, run[0].threads));
    } else {
      StepsMade(loops, run, steps, i - 1);
      var s, step := run[i - 1], steps[i - 1];
      AllUpdate(Made, s.threads, step.t, run[i].threads[step.t]);
      assert run[i].threads == s.threads[step.t := run[i].threads[step.t]];
    }
  }

  /** Without a cancellation every interleaving ends, after exactly four steps for each thread
      and iteration, and then the counter is the number of threads times the iterations. */
  lemma AllCounted(loops: nat, run: seq<State>, steps: seq<Step>)
    requires IsRun(loops, run, steps) && forall j | 0 <= j < |steps| :: steps[j].Run?
    ensures |steps| <= |run[0].threads| * (4 * loops)
    ensures var s := run[|steps|];
            |steps| == |run[0].threads| * (4 * loops) <==> forall t :: !Enabled(loops, s, Run(t))
    ensures var s := run[|steps|];
            (forall t :: !Enabled(loops, s, Run(t))) ==> s.counter == |run[0].threads| * loops
  {
    var i := |steps|;
    var s := run[i];
    Invariant(loops, run, steps, i);
    StepsMade(loops, run, steps, i);
    NoDeadlock(loops, run, steps, i);
    SumBound(All(Made, s.threads), 4 * loops);
    SumBound(All(Written, s.threads), loops);
  }
}
