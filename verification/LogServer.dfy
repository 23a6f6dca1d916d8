/** The bounded queue of the message server (ch09/msg_server.c): a circular array with head,
    tail and count, filled by the thread that polls the sockets, which drops what does not fit,
    and emptied by the logging thread. First the queue as a class that refines a sequence, then
    the two threads as a state machine over all their interleavings. */
module LogServer {
  import opened CStrings
  import opened Options
  import opened Sums

  datatype Entry = Entry(ip: string, message: string)

  const IP_SIZE: nat := 16
  const MESSAGE_SIZE: nat := 1024

  /** What `strncpy(dst, src, size - 1)` leaves in a zeroed buffer of `size`. */
  function Clip(s: string, size: nat): (r: string)
    requires size > 0
    ensures |r| < size && r <= s && (|s| < size ==> r == s) && (|s| >= size ==> |r| == size - 1)
  {
    if |s| < size then s else s[..size - 1]
  }

  function Clipped(e: Entry): Entry {
    Entry(Clip(e.ip, IP_SIZE), Clip(e.message, MESSAGE_SIZE))
  }

  // ----- The queue as a sequence -----

  /** The slot that is k places behind `i` in a circle of n. */
  function Ahead(i: nat, k: nat, n: nat): (slot: nat)
    requires i < n && k <= n
    ensures slot < n
  {
    if i + k < n then i + k else i + k - n
  }

  lemma SmallModulo(x: nat, n: nat)
    requires x < n
    ensures x % n == x
  {
  }

  lemma OnceAround(x: nat, n: nat)
    requires x < n
    ensures (x + n) % n == x
  {
    var k := (x + n) / n - 1;
    assert k * n == x - (x + n) % n;
    assert k >= 1 ==> k * n >= n;
    assert k <= -1 ==> k * n + n <= 0;
  }

  lemma AheadIsModulo(i: nat, k: nat, n: nat)
    requires i < n && k <= n
    ensures Ahead(i, k, n) == (i + k) % n
  {
    if i + k < n {
      SmallModulo(i + k, n);
    } else {
      OnceAround(i + k - n, n);
    }
  }

  /** The entries from `head` on, in the order they will be taken out: a window on the circle,
      unrolled twice. */
  function Contents(slots: seq<Entry>, head: nat, count: nat): (entries: seq<Entry>)
    requires head < |slots| && count <= |slots|
    ensures |entries| == count
    ensures forall k | 0 <= k < count :: entries[k] == slots[Ahead(head, k, |slots|)]
  {
    (slots + slots)[head..head + count]
  }

  /** Writing the slot behind the last entry and counting it appends. */
  lemma Appends(slots: seq<Entry>, head: nat, count: nat, e: Entry)
    requires head < |slots| && count < |slots|
    ensures Contents(slots[Ahead(head, count, |slots|) := e], head, count + 1) == Contents(slots, head, count) + [e]
    ensures Ahead(Ahead(head, count, |slots|), 1, |slots|) == Ahead(head, count + 1, |slots|)
  {
  }

  /** Until it is counted, that write does not show. */
  lemma Hidden(slots: seq<Entry>, head: nat, count: nat, e: Entry)
    requires head < |slots| && count < |slots|
    ensures Contents(slots[Ahead(head, count, |slots|) := e], head, count) == Contents(slots, head, count)
  {
  }

  /** Moving the head on and counting down takes out the first entry. */
  lemma TakesFirst(slots: seq<Entry>, head: nat, count: nat)
    requires head < |slots| && 0 < count <= |slots|
    ensures Contents(slots, head, count) == [slots[head]] + Contents(slots, Ahead(head, 1, |slots|), count - 1)
    ensures Ahead(Ahead(head, 1, |slots|), count - 1, |slots|) == Ahead(head, count, |slots|)
  {
  }

  // ----- Receiving a datagram -----

  /** What `receive_from` hands to `enqueue` for the bytes that arrived: nothing for an empty
      datagram, else the text without one newline at its end. */
  function Received(ip: string, bytes: string): Option<Entry>
    requires |bytes| < MESSAGE_SIZE
  {
    if bytes == [] then None
    else Some(Entry(ip, CString(if bytes[|bytes| - 1] == '\n' then bytes[..|bytes| - 1] else bytes)))
  }

  lemma {:induction false} CStringOfFilled(bytes: string, behind: string)
    ensures CString(bytes + ['\0'] + behind) == CString(bytes)
  {
    var all := bytes + ['\0'] + behind;
    if bytes != [] && bytes[0] != '\0' {
      assert all[1..] == bytes[1..] + ['\0'] + behind;
      CStringOfFilled(bytes[1..], behind);
    }
  }

  lemma {:induction false} CStringOfText(w: string)
    requires '\0' !in w
    ensures CString(w) == w
  {
    if w != [] {
      CStringOfText(w[1..]);
    }
  }

  /** A datagram with one newline at its end, or none, brings its text. */
  lemma TextArrives(ip: string, w: string)
    requires '\0' !in w && |w| + 1 < MESSAGE_SIZE
    ensures Received(ip, w + "\n") == Some(Entry(ip, w))
    ensures w != [] && w[|w| - 1] != '\n' ==> Received(ip, w) == Some(Entry(ip, w))
  {
    assert (w + "\n")[..|w|] == w;
    CStringOfText(w);
  }

  /** With a NUL inside, the text is what stands in front of it. */
  lemma TextEndsAtNul(ip: string, w: string, behind: string)
    requires '\0' !in w && |w| + 1 + |behind| < MESSAGE_SIZE
    ensures Received(ip, w + "\0" + behind) == Some(Entry(ip, w))
  {
    var bytes := w + "\0" + behind;
    var kept := if bytes[|bytes| - 1] == '\n' then bytes[..|bytes| - 1] else bytes;
    assert kept == w + ['\0'] + kept[|w| + 1..];
    CStringOfFilled(w, kept[|w| + 1..]);
    CStringOfText(w);
  }

  /** The two NULs that `receive_from` writes, and the string that is then in the buffer. */
  method Terminate(buf: array<char>, nbytes: nat) returns (text: string)
    requires 0 < nbytes < buf.Length <= MESSAGE_SIZE
    modifies buf
    ensures forall ip :: Received(ip, old(buf[..nbytes])) == Some(Entry(ip, text))
    ensures |text| <= nbytes
  {
    ghost var bytes := buf[..nbytes];
    buf[nbytes] := '\0';
    if buf[nbytes - 1] == '\n' {
      buf[nbytes - 1] := '\0';
      assert buf[..] == bytes[..nbytes - 1] + ['\0'] + buf[nbytes..];
      CStringOfFilled(bytes[..nbytes - 1], buf[nbytes..]);
    } else {
      assert buf[..] == bytes + ['\0'] + buf[nbytes + 1..];
      CStringOfFilled(bytes, buf[nbytes + 1..]);
    }
    text := CString(buf[..]);
  }

  // ----- The queue as the code has it -----

  class MessageQueue {
    const slots: array<Entry>
    var head: nat
    var tail: nat
    var count: nat

    ghost predicate Valid()
      reads this, slots
    {
      head < slots.Length && count <= slots.Length && tail == Ahead(head, count, slots.Length)
    }

    ghost function Entries(): seq<Entry>
      requires Valid()
      reads this, slots
    {
      Contents(slots[..], head, count)
    }

    constructor (size: nat)
      requires size > 0
      ensures Valid() && Entries() == [] && slots.Length == size && fresh(slots)
    {
      slots := new Entry[size](_ => Entry("", ""));
      head, tail, count := 0, 0, 0;
    }

    /** `enqueue`: appends, or drops the entry when the queue is full. */
    method Enqueue(e: Entry) returns (accepted: bool)
      requires Valid()
      modifies this, slots
      ensures Valid()
      ensures accepted <==> |old(Entries())| < slots.Length
      ensures Entries() == if accepted then old(Entries()) + [Clipped(e)] else old(Entries())
    {
      accepted := count < slots.Length;
      if accepted {
        Appends(slots[..], head, count, Clipped(e));
        AheadIsModulo(tail, 1, slots.Length);
        slots[tail] := Clipped(e);
        tail := (tail + 1) % slots.Length;
        count := count + 1;
        assert slots[..] == old(slots[..])[old(tail) := Clipped(e)];
      }
    }

    /** `receive_from`: `nbytes` is what `recvfrom` has returned and read into `buf`. */
    method ReceiveFrom(ip: string, buf: array<char>, nbytes: int) returns (accepted: bool)
      requires Valid() && |ip| < IP_SIZE && buf.Length == MESSAGE_SIZE && -1 <= nbytes < MESSAGE_SIZE
      modifies this, slots, buf
      ensures Valid()
      ensures accepted <==> nbytes > 0 && |old(Entries())| < slots.Length
      ensures Entries() == if accepted then old(Entries()) + [Received(ip, old(buf[..nbytes])).value] else old(Entries())
    {
      if nbytes <= 0 {
        return false;
      }
      var text := Terminate(buf, nbytes);
      accepted := Enqueue(Entry(ip, text));
    }

    /** The body of `msg_collect` once the queue is not empty: takes out the oldest entry. */
    method Take() returns (e: Entry)
      requires Valid() && Entries() != []
      modifies this
      ensures Valid()
      ensures [e] + Entries() == old(Entries())
    {
      TakesFirst(slots[..], head, count);
      AheadIsModulo(head, 1, slots.Length);
      e := slots[head];
      head := (head + 1) % slots.Length;
      count := count - 1;
    }
  }

  // ----- The two threads -----

  /** The polling thread: between datagrams, or inside `enqueue` with an entry. */
  datatype Producer =
    | Polling
    | Want(e: Entry) | Test(e: Entry)
    | CopyIp(e: Entry) | CopyMessage(e: Entry) | MoveTail(e: Entry) | CountUp(e: Entry)
    | Signal | Release

  /** The logging thread. Woken, it wants the mutex again and tests again. */
  datatype Consumer =
    | WantLock | TestEmpty | Asleep
    | Copy | MoveHead(e: Entry) | CountDown(e: Entry) | Unlock(e: Entry)
    | Log(e: Entry)

  datatype Owner = Nobody | ProducerHas | ConsumerHas

  /** Beside the variables of the program: the entries accepted, and those logged. */
  datatype State = State(slots: seq<Entry>, head: nat, tail: nat, count: nat, owner: Owner,
                         producer: Producer, consumer: Consumer, accepted: seq<Entry>, logged: seq<Entry>)

  /** A datagram arrives; one of the threads moves; or the consumer wakes up for no reason. */
  datatype Step = Arrive(ip: string, bytes: string) | Produce | Consume | Spurious

  predicate Init(s: State) {
    && |s.slots| > 0
    && s == State(s.slots, 0, 0, 0, Nobody, Polling, WantLock, [], [])
  }

  predicate Enabled(s: State, step: Step) {
    match step
    case Arrive(ip, bytes) => s.producer.Polling? && |ip| < IP_SIZE && |bytes| < MESSAGE_SIZE
    case Produce => !s.producer.Polling? && (s.producer.Want? ==> s.owner.Nobody?)
    case Consume => !s.consumer.Asleep? && (s.consumer.WantLock? ==> s.owner.Nobody?)
    case Spurious => s.consumer.Asleep?
  }

  function PutIp(s: State, ip: string): seq<Entry> {
    if s.tail < |s.slots| then s.slots[s.tail := s.slots[s.tail].(ip := ip)] else s.slots
  }

  function PutMessage(s: State, message: string): seq<Entry> {
    if s.tail < |s.slots| then s.slots[s.tail := s.slots[s.tail].(message := message)] else s.slots
  }

  function ProducerStep(s: State): State
    requires |s.slots| > 0
  {
    match s.producer
    case Polling => s
    case Want(e) => s.(owner := ProducerHas, producer := Test(e))
    case Test(e) => s.(producer := if s.count < |s.slots| then CopyIp(e) else Release)
    case CopyIp(e) => s.(slots := PutIp(s, Clip(e.ip, IP_SIZE)), producer := CopyMessage(e))
    case CopyMessage(e) => s.(slots := PutMessage(s, Clip(e.message, MESSAGE_SIZE)), producer := MoveTail(e))
    case MoveTail(e) => s.(tail := (s.tail + 1) % |s.slots|, producer := CountUp(e))
    case CountUp(e) => s.(count := s.count + 1, accepted := s.accepted + [Clipped(e)], producer := Signal)
    case Signal => s.(consumer := if s.consumer.Asleep? then WantLock else s.consumer, producer := Release)
    case Release => s.(owner := Nobody, producer := Polling)
  }

  function ConsumerStep(s: State): State
    requires |s.slots| > 0
  {
    match s.consumer
    case WantLock => s.(owner := ConsumerHas, consumer := TestEmpty)
    case TestEmpty => if s.count == 0 then s.(owner := Nobody, consumer := Asleep) else s.(consumer := Copy)
    case Asleep => s
    case Copy => if s.head < |s.slots| then s.(consumer := MoveHead(s.slots[s.head])) else s
    case MoveHead(e) => s.(head := (s.head + 1) % |s.slots|, consumer := CountDown(e))
    case CountDown(e) => s.(count := if s.count > 0 then s.count - 1 else 0, consumer := Unlock(e))
    case Unlock(e) => s.(owner := Nobody, consumer := Log(e))
    case Log(e) => s.(logged := s.logged + [e], consumer := WantLock)
  }

  function Apply(s: State, step: Step): State
    requires |s.slots| > 0 && Enabled(s, step)
  {
    match step
    case Arrive(ip, bytes) => if Received(ip, bytes).Some? then s.(producer := Want(Received(ip, bytes).value)) else s
    case Produce => ProducerStep(s)
    case Consume => ConsumerStep(s)
    case Spurious => s.(consumer := WantLock)
  }

  predicate Next(s: State, step: Step, t: State) {
    |s.slots| > 0 && Enabled(s, step) && t == Apply(s, step)
  }

  predicate IsRun(run: seq<State>, steps: seq<Step>) {
    && |run| == |steps| + 1 && Init(run[0])
    && forall i | 0 <= i < |steps| :: Next(run[i], steps[i], run[i + 1])
  }

  // ----- The invariant -----

  /** The entry that has left the queue and is not yet logged. */
  function Hand(c: Consumer): seq<Entry> {
    match c
    case CountDown(e) => [e]
    case Unlock(e) => [e]
    case Log(e) => [e]
    case _ => []
  }

  /** The number of entries still to be read from the head on: one less than `q_count` between
      the two statements of the consumer that move the head and count down. */
  function Waiting(s: State): int {
    if s.consumer.CountDown? then s.count - 1 else s.count
  }

  predicate ProducerInside(p: Producer) {
    !p.Polling? && !p.Want?
  }

  predicate ConsumerInside(c: Consumer) {
    c.TestEmpty? || c.Copy? || c.MoveHead? || c.CountDown? || c.Unlock?
  }

  predicate Writing(p: Producer) {
    p.CopyIp? || p.CopyMessage? || p.MoveTail? || p.CountUp?
  }

  /** Where the tail is: one ahead of its place between the two statements of the producer. */
  predicate TailInPlace(s: State)
    requires s.head < |s.slots| && 0 <= Waiting(s) <= |s.slots|
  {
    if s.producer.CountUp? then Waiting(s) < |s.slots| && s.tail == Ahead(s.head, Waiting(s) + 1, |s.slots|)
    else s.tail == Ahead(s.head, Waiting(s), |s.slots|)
  }

  predicate ProducerSound(s: State)
    requires s.head < |s.slots| && 0 <= Waiting(s) <= |s.slots|
  {
    && (Writing(s.producer) ==> s.count < |s.slots|)
    && (s.producer.CopyMessage? ==> s.slots[Ahead(s.head, Waiting(s), |s.slots|)].ip == Clip(s.producer.e.ip, IP_SIZE))
    && (s.producer.MoveTail? || s.producer.CountUp? ==>
          s.slots[Ahead(s.head, Waiting(s), |s.slots|)] == Clipped(s.producer.e))
  }

  predicate ConsumerSound(s: State)
    requires s.head < |s.slots|
  {
    && (s.consumer.Copy? || s.consumer.MoveHead? || s.consumer.CountDown? ==> s.count > 0)
    && (s.consumer.MoveHead? ==> s.consumer.e == s.slots[s.head])
    && (s.consumer.Asleep? ==> s.count == 0 || s.producer.Signal?)
  }

  predicate Inv(s: State) {
    && s.head < |s.slots| && 0 <= Waiting(s) && s.count <= |s.slots|
    && (s.owner == ProducerHas <==> ProducerInside(s.producer))
    && (s.owner == ConsumerHas <==> ConsumerInside(s.consumer))
    && TailInPlace(s) && ProducerSound(s) && ConsumerSound(s)
    && s.accepted == s.logged + Hand(s.consumer) + Contents(s.slots, s.head, Waiting(s))
  }

  /** The producer's writes go to the slot behind the last entry, where they do not show. */
  lemma ProducerWrites(s: State)
    requires Inv(s) && (s.producer.CopyIp? || s.producer.CopyMessage?)
    ensures Inv(ProducerStep(s))
  {
    var t := ProducerStep(s);
    assert s.tail == Ahead(s.head, s.count, |s.slots|);
    assert t.slots == s.slots[s.tail := t.slots[s.tail]];
    Hidden(s.slots, s.head, s.count, t.slots[s.tail]);
  }

  /** Counting up makes the written slot the last entry of the queue. */
  lemma ProducerCounts(s: State)
    requires Inv(s) && s.producer.CountUp?
    ensures Inv(ProducerStep(s))
  {
    Appends(s.slots, s.head, s.count, Clipped(s.producer.e));
    assert s.slots[Ahead(s.head, s.count, |s.slots|) := Clipped(s.producer.e)] == s.slots;
  }

  lemma ProducerKeeps(s: State)
    requires Inv(s) && Enabled(s, Produce)
    ensures Inv(ProducerStep(s))
  {
    match s.producer
    case CopyIp(e) => ProducerWrites(s);
    case CopyMessage(e) => ProducerWrites(s);
    case MoveTail(e) => AheadIsModulo(s.tail, 1, |s.slots|);
    case CountUp(e) => ProducerCounts(s);
    case _ =>
  }

  lemma ConsumerMoves(s: State)
    requires Inv(s) && s.consumer.MoveHead?
    ensures ConsumerStep(s).head == Ahead(s.head, 1, |s.slots|) && ConsumerStep(s).head < |s.slots|
  {
    AheadIsModulo(s.head, 1, |s.slots|);
  }

  /** Moving the head takes the entry out of the queue and into the consumer's hand. */
  lemma EntryChangesHands(slots: seq<Entry>, head: nat, count: nat, logged: seq<Entry>)
    requires head < |slots| && 0 < count <= |slots|
    ensures logged + [] + Contents(slots, head, count) == logged + [slots[head]] + Contents(slots, Ahead(head, 1, |slots|), count - 1)
  {
    TakesFirst(slots, head, count);
    assert logged + [] == logged;
    assert logged + ([slots[head]] + Contents(slots, Ahead(head, 1, |slots|), count - 1)) ==
           logged + [slots[head]] + Contents(slots, Ahead(head, 1, |slots|), count - 1);
  }

  lemma TailStays(head: nat, count: nat, n: nat)
    requires head < n && 0 < count <= n
    ensures Ahead(Ahead(head, 1, n), count - 1, n) == Ahead(head, count, n)
    ensures count < n ==> Ahead(Ahead(head, 1, n), count, n) == Ahead(head, count + 1, n)
  {
  }

  lemma ConsumerTakes(s: State)
    requires Inv(s) && s.consumer.MoveHead?
    ensures Inv(ConsumerStep(s))
  {
    ConsumerMoves(s);
    EntryChangesHands(s.slots, s.head, s.count, s.logged);
    TailStays(s.head, s.count, |s.slots|);
  }

  lemma ConsumerKeeps(s: State)
    requires Inv(s) && Enabled(s, Consume)
    ensures Inv(ConsumerStep(s))
  {
    if s.consumer.MoveHead? {
      ConsumerTakes(s);
    }
  }

  lemma {:induction false} Invariant(run: seq<State>, steps: seq<Step>, i: nat)
    requires IsRun(run, steps) && i < |run|
    ensures Inv(run[i])
  {
    if i > 0 {
      Invariant(run, steps, i - 1);
      assert Next(run[i - 1], steps[i - 1], run[i]);
      match steps[i - 1]
      case Produce => ProducerKeeps(run[i - 1]);
      case Consume => ConsumerKeeps(run[i - 1]);
      case _ =>
    }
  }

  // ----- The properties -----

  /** In every interleaving the accepted entries are those logged, then the one in the
      consumer's hand, then those in the queue read from the head; so they are logged in the
      order they were accepted, each once. */
  lemma Conserved(run: seq<State>, steps: seq<Step>, i: nat)
    requires IsRun(run, steps) && i < |run|
    ensures var s := run[i];
            && s.head < |s.slots| && 0 <= Waiting(s) <= |s.slots|
            && s.accepted == s.logged + Hand(s.consumer) + Contents(s.slots, s.head, Waiting(s))
            && s.logged <= s.accepted
  {
    Invariant(run, steps, i);
  }

  /** Whenever the mutex is free, the tail is where head and count say. */
  lemma WellFormed(run: seq<State>, steps: seq<Step>, i: nat)
    requires IsRun(run, steps) && i < |run| && run[i].owner == Nobody
    ensures var s := run[i];
            s.head < |s.slots| && s.count <= |s.slots| && s.tail == (s.head + s.count) % |s.slots|
  {
    Invariant(run, steps, i);
    AheadIsModulo(run[i].head, run[i].count, |run[i].slots|);
  }

  /** The two threads are never inside the mutex together. */
  lemma Exclusion(run: seq<State>, steps: seq<Step>, i: nat)
    requires IsRun(run, steps) && i < |run|
    ensures !(ProducerInside(run[i].producer) && ConsumerInside(run[i].consumer))
  {
    Invariant(run, steps, i);
  }

  /** An entry is dropped exactly when as many accepted entries as there are slots have been
      neither logged nor taken by the consumer. */
  lemma DropsExactlyWhenFull(run: seq<State>, steps: seq<Step>, i: nat)
    requires IsRun(run, steps) && i < |steps| && steps[i] == Produce && run[i].producer.Test?
    ensures var s := run[i];
            run[i + 1].producer.Release? <==> |s.accepted| - |s.logged| - |Hand(s.consumer)| == |s.slots|
    ensures var s := run[i];
            run[i + 1].producer == CopyIp(s.producer.e) <==> |s.accepted| - |s.logged| - |Hand(s.consumer)| < |s.slots|
  {
    Invariant(run, steps, i);
    assert Next(run[i], steps[i], run[i + 1]);
  }

  /** No lost wake-up: while the consumer sleeps, the queue is empty, or the producer, holding
      the mutex, has yet to signal. So with an entry in the queue the consumer can move unless
      the producer has the mutex, and then the producer can. */
  lemma NoLostWakeup(run: seq<State>, steps: seq<Step>, i: nat)
    requires IsRun(run, steps) && i < |run|
    ensures var s := run[i];
            && (s.consumer.Asleep? ==> s.count == 0 || s.producer.Signal?)
            && (s.count > 0 ==> Enabled(s, Consume) || (s.owner == ProducerHas && Enabled(s, Produce)))
  {
    Invariant(run, steps, i);
  }

  /** Receiving already cuts to the size of a slot, so copying into one never cuts: what is
      accepted, and later logged, is what was received. */
  lemma {:induction false} NothingClipped(run: seq<State>, steps: seq<Step>, i: nat)
    requires IsRun(run, steps) && i < |run|
    requires !run[i].producer.Polling? && !run[i].producer.Signal? && !run[i].producer.Release?
    ensures var e := run[i].producer.e; Clipped(e) == e && |e.ip| <= 15 && |e.message| <= 1023
  {
    assert i > 0;
    assert Next(run[i - 1], steps[i - 1], run[i]);
    if !steps[i - 1].Arrive? {
      NothingClipped(run, steps, i - 1);
    }
  }

  // ----- Everything accepted was sent -----

  /** `recvfrom` is asked for one byte less than the buffer has. */
  predicate Fit(steps: seq<Step>) {
    forall step | step in steps :: step.Arrive? ==> |step.bytes| < MESSAGE_SIZE
  }

  /** The entries of the datagrams that have arrived, in order. */
  function Arrived(steps: seq<Step>): seq<Entry>
    requires Fit(steps)
  {
    if steps == [] then [] else Arrived(steps[..|steps| - 1]) + ArrivedBy(steps[|steps| - 1])
  }

  function ArrivedBy(step: Step): seq<Entry>
    requires step.Arrive? ==> |step.bytes| < MESSAGE_SIZE
  {
    if step.Arrive? && Received(step.ip, step.bytes).Some? then [Received(step.ip, step.bytes).value] else []
  }

  /** What has become of them: dropped at the test for a full queue, or counted. */
  function Fates(run: seq<State>, steps: seq<Step>): seq<bool>
    requires |run| == |steps| + 1
  {
    if steps == [] then []
    else
      var last := |steps| - 1;
      Fates(run[..|steps|], steps[..last]) + FateBy(run[last], steps[last])
  }

  function FateBy(s: State, step: Step): seq<bool> {
    if step == Produce && s.producer.Test? && s.count >= |s.slots| then [false]
    else if step == Produce && s.producer.CountUp? then [true]
    else []
  }

  function Chosen(entries: seq<Entry>, fates: seq<bool>): seq<Entry>
    requires |entries| == |fates|
  {
    if fates == [] then []
    else
      var last := |fates| - 1;
      Chosen(entries[..last], fates[..last]) + if fates[last] then [entries[last]] else []
  }

  /** The entry in the producer's hands, neither counted nor dropped. */
  function Offered(p: Producer): seq<Entry> {
    if p.Want? || p.Test? || Writing(p) then [p.e] else []
  }

  /** The entries in `arrived` have met their `fates`, but for the one in the producer's hands. */
  predicate Sent(s: State, arrived: seq<Entry>, fates: seq<bool>) {
    && |fates| <= |arrived| && arrived[|fates|..] == Offered(s.producer)
    && s.accepted == Chosen(arrived[..|fates|], fates)
  }

  lemma ChosenMore(entries: seq<Entry>, fates: seq<bool>, e: Entry, fate: bool)
    requires |entries| == |fates|
    ensures Chosen(entries + [e], fates + [fate]) == Chosen(entries, fates) + if fate then [e] else []
  {
    assert (entries + [e])[..|entries|] == entries && (fates + [fate])[..|fates|] == fates;
  }

  lemma SentStep(s: State, step: Step, t: State, arrived: seq<Entry>, fates: seq<bool>)
    requires Next(s, step, t) && Sent(s, arrived, fates)
    requires s.producer.CountUp? ==> Clipped(s.producer.e) == s.producer.e
    ensures Sent(t, arrived + ArrivedBy(step), fates + FateBy(s, step))
  {
    hide Chosen;
    if FateBy(s, step) != [] {
      assert arrived == arrived[..|fates|] + [s.producer.e];
      ChosenMore(arrived[..|fates|], fates, s.producer.e, FateBy(s, step)[0]);
      assert (arrived + [])[..|fates| + 1] == arrived[..|fates|] + [s.producer.e];
    } else {
      assert fates + [] == fates && (arrived + ArrivedBy(step))[..|fates|] == arrived[..|fates|];
      assert (arrived + ArrivedBy(step))[|fates|..] == arrived[|fates|..] + ArrivedBy(step);
    }
  }

  lemma ArrivalsFit(run: seq<State>, steps: seq<Step>)
    requires IsRun(run, steps)
    ensures Fit(steps)
  {
    forall step | step in steps
      ensures step.Arrive? ==> |step.bytes| < MESSAGE_SIZE
    {
      var i :| 0 <= i < |steps| && steps[i] == step;
      assert Next(run[i], steps[i], run[i + 1]);
    }
  }

  /** In every run the accepted entries are those of the datagrams that arrived, in order, less
      those dropped on a full queue and the one still in the producer's hands. */
  lemma {:induction false} AcceptedWasSent(run: seq<State>, steps: seq<Step>)
    requires IsRun(run, steps)
    ensures Fit(steps)
            && Sent(run[|steps|], Arrived(steps), Fates(run, steps))
    decreases |steps|
  {
    hide Sent, Next, Chosen;
    ArrivalsFit(run, steps);
    if steps == [] {
      NothingSent(run[0]);
    } else {
      var last := |steps| - 1;
      PrefixIsRun(run, steps);
      AcceptedWasSent(run[..|steps|], steps[..last]);
      ProducerHoldsWhole(run, steps, last);
      SentStep(run[last], steps[last], run[|steps|], Arrived(steps[..last]), Fates(run[..|steps|], steps[..last]));
    }
  }

  lemma NothingSent(s: State)
    requires Init(s)
    ensures Sent(s, [], [])
  {
  }

  lemma PrefixIsRun(run: seq<State>, steps: seq<Step>)
    requires IsRun(run, steps) && steps != []
    ensures IsRun(run[..|steps|], steps[..|steps| - 1]) && Next(run[|steps| - 1], steps[|steps| - 1], run[|steps|])
  {
  }

  lemma ProducerHoldsWhole(run: seq<State>, steps: seq<Step>, i: nat)
    requires IsRun(run, steps) && i < |run|
    ensures run[i].producer.CountUp? ==> Clipped(run[i].producer.e) == run[i].producer.e
  {
    if run[i].producer.CountUp? {
      NothingClipped(run, steps, i);
    }
  }

  // ----- Everything accepted is logged -----

  function ProducerWork(p: Producer): nat {
    match p
    case Polling => 0
    case Want(_) => 26
    case Test(_) => 25
    case CopyIp(_) => 24
    case CopyMessage(_) => 23
    case MoveTail(_) => 22
    case CountUp(_) => 21
    case Signal => 13
    case Release => 1
  }

  function ConsumerWork(c: Consumer): nat {
    match c
    case Asleep => 0
    case CountDown(_) => 7
    case MoveHead(_) => 8
    case Copy => 9
    case TestEmpty => 10
    case WantLock => 11
    case Log(_) => 12
    case Unlock(_) => 13
  }

  /** A bound on the steps the two threads can make when nothing more arrives. */
  function Work(s: State): nat {
    ProducerWork(s.producer) + ConsumerWork(s.consumer) + 7 * s.count
  }

  /** The steps that a step allows at most: itself, and those it gives the threads to make. */
  function Allowance(step: Step): nat {
    match step
    case Arrive(_, _) => 27
    case Spurious => 12
    case _ => 0
  }

  lemma WorkPays(s: State, step: Step)
    requires Inv(s) && Enabled(s, step)
    ensures Work(Apply(s, step)) + 1 <= Work(s) + Allowance(step)
  {
  }

  /** With nothing left to do, everything is logged. */
  lemma IdleMeansLogged(s: State)
    requires Inv(s) && !Enabled(s, Produce) && !Enabled(s, Consume)
    ensures s.logged == s.accepted && s.consumer.Asleep? && s.producer.Polling?
  {
  }

  function Paid(steps: seq<Step>): (pay: seq<nat>)
    ensures |pay| == |steps| && forall i | 0 <= i < |pay| :: pay[i] == Allowance(steps[i])
  {
    seq(|steps|, i requires 0 <= i < |steps| => Allowance(steps[i]))
  }

  function WorkOf(run: seq<State>): (work: seq<nat>)
    ensures |work| == |run| && forall i | 0 <= i < |work| :: work[i] == Work(run[i])
  {
    seq(|run|, i requires 0 <= i < |run| => Work(run[i]))
  }

  lemma StepPays(run: seq<State>, steps: seq<Step>, i: nat)
    requires IsRun(run, steps) && i < |steps|
    ensures Work(run[i + 1]) + 1 <= Work(run[i]) + Allowance(steps[i])
  {
    Invariant(run, steps, i);
    assert Next(run[i], steps[i], run[i + 1]);
    WorkPays(run[i], steps[i]);
  }

  lemma WorkBounds(run: seq<State>, steps: seq<Step>, from: nat)
    requires IsRun(run, steps) && from < |run|
    ensures |steps| - from <= Work(run[from]) + Sum(Paid(steps[from..]))
  {
    var work, pay := WorkOf(run[from..]), Paid(steps[from..]);
    forall i | 0 <= i < |pay|
      ensures work[i + 1] + 1 <= work[i] + pay[i]
    {
      StepPays(run, steps, from + i);
    }
    Amortised(work, pay);
  }

  /** In every run the steps made are bounded by the work there was, 27 for each datagram and
      twelve for each spurious wake-up; so once datagrams stop arriving the threads come to rest,
      however they are scheduled. And whenever neither can move, all that was accepted is logged. */
  lemma AllLogged(run: seq<State>, steps: seq<Step>, from: nat)
    requires IsRun(run, steps) && from < |run|
    ensures |steps| - from <= Work(run[from]) + Sum(Paid(steps[from..]))
    ensures var s := run[|steps|];
            !Enabled(s, Produce) && !Enabled(s, Consume) ==> s.logged == s.accepted
  {
    WorkBounds(run, steps, from);
    Invariant(run, steps, |steps|);
    if !Enabled(run[|steps|], Produce) && !Enabled(run[|steps|], Consume) {
      IdleMeansLogged(run[|steps|]);
    }
  }

  /** So what is logged is what was sent: at any time the first of the entries that arrived and
      were not dropped, and all of them whenever neither thread can move. */
  lemma LoggedWasSent(run: seq<State>, steps: seq<Step>)
    requires IsRun(run, steps)
    ensures Fit(steps)
            && var s, arrived, fates := run[|steps|], Arrived(steps), Fates(run, steps);
               && |fates| <= |arrived| && s.logged <= Chosen(arrived[..|fates|], fates)
               && (!Enabled(s, Produce) && !Enabled(s, Consume) ==> |fates| == |arrived| && s.logged == Chosen(arrived, fates))
  {
    hide Init, Next, Enabled, Chosen, Sent, Fit;
    AcceptedWasSent(run, steps);
    LoggedOfAccepted(run, steps);
    FollowsSent(run[|steps|], Arrived(steps), Fates(run, steps));
  }

  lemma LoggedOfAccepted(run: seq<State>, steps: seq<Step>)
    requires IsRun(run, steps)
    ensures var s := run[|steps|];
            && s.logged <= s.accepted
            && (!Enabled(s, Produce) && !Enabled(s, Consume) ==> s.logged == s.accepted && s.producer.Polling?)
  {
    Conserved(run, steps, |steps|);
    Invariant(run, steps, |steps|);
    if !Enabled(run[|steps|], Produce) && !Enabled(run[|steps|], Consume) {
      IdleMeansLogged(run[|steps|]);
    }
  }

  lemma FollowsSent(s: State, arrived: seq<Entry>, fates: seq<bool>)
    requires Sent(s, arrived, fates) && s.logged <= s.accepted
    ensures |fates| <= |arrived| && s.logged <= Chosen(arrived[..|fates|], fates)
    ensures s.producer.Polling? ==> |fates| == |arrived| && s.accepted == Chosen(arrived, fates)
  {
    assert s.producer.Polling? ==> arrived[..|fates|] == arrived;
  }
}
