/** The semaphore hand-off of one shared buffer between a sender (ch07/exercise-3.c) and a
    receiver (ch07/exercise-4.c): sem[0] permits writing, sem[1] reading, and the end is
    announced by removing the semaphore set. A state machine over all interleavings, in which
    the buffer is written and read one character at a time. */
module Handoff {
  import opened Options

  /** The number of messages, and the size of the shared memory. */
  datatype Config = Config(n: nat, size: nat)

  function Decimal(n: nat): string {
    if n < 10 then ['0' + n as char] else Decimal(n / 10) + ['0' + (n % 10) as char]
  }

  function Message(i: nat): string {
    "shared memory test " + Decimal(i + 1)
  }

  /** What the sender writes in its i-th turn; after the n messages comes "end". */
  function Payload(c: Config, i: nat): string {
    if i < c.n then Message(i) else "end"
  }

  /** Every payload and its NUL fit into the shared memory. */
  ghost predicate Fits(c: Config) {
    forall i: nat | i <= c.n :: |Payload(c, i)| < c.size
  }

  /** The first k messages. */
  function Messages(k: nat): seq<string> {
    seq(k, i requires 0 <= i => Message(i))
  }

  datatype Semaphores = Semaphores(write: nat, read: nat)

  datatype Sender =
    | Set0 | Set1
    | AskWrite(i: nat)
    | Writing(i: nat, j: nat)
    | Signal(i: nat)
    | SDetach | Remove | RemoveAgain | SDone

  datatype Receiver =
    | AskRead
    | Reading(got: string)
    | Judge(message: string)
    | Reply
    | RDetach | RemoveMemory | RemoveSet | RDone

  /** The semaphore set is None once removed. */
  datatype State = State(sems: Option<Semaphores>, memory: seq<char>, sender: Sender, receiver: Receiver, received: seq<string>)

  predicate Init(c: Config, s: State) {
    && |s.memory| == c.size
    && s == State(Some(Semaphores(0, 0)), s.memory, Set0, AskRead, [])
  }

  // ----- The steps -----

  /** semop(-1) blocks on a zero semaphore; on a removed set it fails at once, unchecked. */
  predicate SenderEnabled(s: State) {
    match s.sender
    case AskWrite(_) => s.sems.Some? ==> s.sems.value.write > 0
    case SDone => false
    case _ => true
  }

  predicate ReceiverEnabled(s: State) {
    match s.receiver
    case AskRead => s.sems.Some? ==> s.sems.value.read > 0
    case RDone => false
    case _ => true
  }

  function Poke(memory: seq<char>, j: nat, ch: char): seq<char> {
    if j < |memory| then memory[j := ch] else memory
  }

  function SetWrite(s: State, k: int): Option<Semaphores> {
    match s.sems
    case None => None
    case Some(v) => Some(v.(write := if v.write + k >= 0 then v.write + k else 0))
  }

  function SetRead(s: State, k: int): Option<Semaphores> {
    match s.sems
    case None => None
    case Some(v) => Some(v.(read := if v.read + k >= 0 then v.read + k else 0))
  }

  function SenderStep(c: Config, s: State): State
    requires SenderEnabled(s)
  {
    match s.sender
    case Set0 => s.(sems := if s.sems.Some? then Some(s.sems.value.(write := 1)) else None, sender := Set1)
    case Set1 => s.(sems := if s.sems.Some? then Some(s.sems.value.(read := 0)) else None, sender := AskWrite(0))
    case AskWrite(i) => s.(sems := SetWrite(s, -1), sender := Writing(i, 0))
    case Writing(i, j) =>
      if j < |Payload(c, i)| then s.(memory := Poke(s.memory, j, Payload(c, i)[j]), sender := Writing(i, j + 1))
      else s.(memory := Poke(s.memory, j, '\0'), sender := if i < c.n then Signal(i) else SDetach)
    case Signal(i) => s.(sems := SetRead(s, 1), sender := AskWrite(i + 1))
    case SDetach => s.(sender := Remove)
    case Remove => s.(sems := None, sender := RemoveAgain)
    case RemoveAgain => s.(sender := SDone)
    case SDone => s
  }

  function ReceiverStep(s: State): State
    requires ReceiverEnabled(s)
  {
    match s.receiver
    case AskRead => s.(sems := SetRead(s, -1), receiver := Reading(""))
    case Reading(got) =>
      if |got| < |s.memory| && s.memory[|got|] != '\0' then s.(receiver := Reading(got + [s.memory[|got|]]))
      else s.(receiver := Judge(got))
    case Judge(m) =>
      if m == "end" then s.(received := s.received + [m], receiver := RDetach)
      else if m == "" then s.(receiver := AskRead)
      else s.(received := s.received + [m], receiver := Reply)
    case Reply => s.(sems := SetWrite(s, 1), receiver := AskRead)
    case RDetach => s.(receiver := RemoveMemory)
    case RemoveMemory => s.(receiver := RemoveSet)
    case RemoveSet => s.(sems := None, receiver := RDone)
    case RDone => s
  }

  predicate Next(c: Config, s: State, t: State) {
    || (SenderEnabled(s) && t == SenderStep(c, s))
    || (ReceiverEnabled(s) && t == ReceiverStep(s))
  }

  predicate IsRun(c: Config, run: seq<State>) {
    && run != [] && Init(c, run[0])
    && forall i | 0 <= i < |run| - 1 :: Next(c, run[i], run[i + 1])
  }

  // ----- The payloads -----

  predicate IsDigit(c: char) {
    '0' <= c <= '9'
  }

  /** Digits without a leading zero. */
  predicate IsNumeral(s: string) {
    s != [] && (forall i | 0 <= i < |s| :: IsDigit(s[i])) && (|s| > 1 ==> s[0] != '0')
  }

  /** The number that `s` denotes, read from left to right. */
  function Value(s: string): int {
    if s == [] then 0 else 10 * Value(s[..|s| - 1]) + (s[|s| - 1] as int - '0' as int)
  }

  lemma {:induction false} ValueAtLeast(s: string)
    requires forall i | 0 <= i < |s| :: IsDigit(s[i])
    ensures Value(s) >= 0 && (s != [] && s[0] != '0' ==> Value(s) > 0)
  {
    if |s| > 1 {
      ValueAtLeast(s[..|s| - 1]);
    }
  }

  /** `%d` writes the one numeral that reads back as the number. */
  lemma {:induction false} DecimalReads(n: nat)
    ensures IsNumeral(Decimal(n)) && Value(Decimal(n)) == n
  {
    if n >= 10 {
      DecimalReads(n / 10);
      var s := Decimal(n / 10);
      assert Decimal(n)[..|s|] == s;
      ValueAtLeast(s);
      if |s| == 1 {
        assert Value(s) == s[0] as int - '0' as int;
      }
    } else {
      assert Decimal(n)[..0] == [];
    }
  }

  lemma {:induction false} NumeralIsDecimal(s: string, n: nat)
    requires IsNumeral(s) && Value(s) == n
    ensures s == Decimal(n)
    decreases |s|
  {
    var front, digit := s[..|s| - 1], s[|s| - 1] as int - '0' as int;
    assert s == front + [s[|s| - 1]];
    if front != [] {
      ValueAtLeast(front);
      assert n / 10 == Value(front) && n % 10 == digit;
      NumeralIsDecimal(front, n / 10);
    }
  }

  /** `m` is the message that counts k. */
  predicate Counts(m: string, k: nat) {
    |m| > 19 && m[..19] == "shared memory test " && IsNumeral(m[19..]) && Value(m[19..]) == k
  }

  lemma MessageExactly(m: string, i: nat)
    ensures m == Message(i) <==> Counts(m, i + 1)
  {
    var p := "shared memory test ";
    assert |p| == 19;
    DecimalReads(i + 1);
    if m == Message(i) {
      assert m[..19] == p && m[19..] == Decimal(i + 1);
    }
    if Counts(m, i + 1) {
      NumeralIsDecimal(m[19..], i + 1);
      assert m == m[..19] + m[19..];
    }
  }

  /** The strings are messages that count from 1 on, up to n at most, and then "end"; so no two
      of them are equal. */
  ghost predicate CountUp(strings: seq<string>, n: nat) {
    && |strings| <= n + 1
    && (forall k | 0 <= k < |strings| :: if k < n then Counts(strings[k], k + 1) else strings[k] == "end")
    && (forall j, k | 0 <= j < k < |strings| :: strings[j] != strings[k])
  }

  lemma PrefixCountsUp(strings: seq<string>, n: nat)
    requires strings <= Messages(n) + ["end"]
    ensures CountUp(strings, n)
  {
    hide IsNumeral, Value, Message;
    forall k | 0 <= k < |strings| && k < n
      ensures Counts(strings[k], k + 1)
    {
      MessageExactly(strings[k], k);
    }
  }

  lemma PayloadClean(c: Config, i: nat)
    ensures forall j | 0 <= j < |Payload(c, i)| :: Payload(c, i)[j] != '\0'
    ensures Payload(c, i) != "" && (Payload(c, i) == "end" <==> i >= c.n)
  {
    DecimalReads(i + 1);
    var p := "shared memory test ";
    assert |p| == 19;
    assert forall j | 0 <= j < |p| :: p[j] != '\0';
  }

  // ----- The invariant -----

  /** The memory holds the C string `m`. */
  predicate Holds(memory: seq<char>, m: string) {
    |m| < |memory| && memory[..|m|] == m && memory[|m|] == '\0'
  }

  /** The receiver between its P and its V (or its exit), on message k. */
  predicate Consuming(c: Config, s: State, k: nat) {
    match s.receiver
    case Reading(got) => got <= Payload(c, k) && s.received == Messages(k)
    case Judge(m) => m == Payload(c, k) && s.received == Messages(k)
    case Reply => k < c.n && s.received == Messages(k + 1)
    case _ => false
  }

  /** The sender asks to write its i-th payload. */
  predicate AtAskWrite(c: Config, s: State, i: nat) {
    && i <= c.n && s.sems.Some?
    && if s.sems.value == Semaphores(1, 0) then s.receiver == AskRead && s.received == Messages(i)
       else
         && i > 0 && Holds(s.memory, Payload(c, i - 1))
         && if s.sems.value == Semaphores(0, 1) then s.receiver == AskRead && s.received == Messages(i - 1)
            else s.sems.value == Semaphores(0, 0) && Consuming(c, s, i - 1)
  }

  /** The sender holds the buffer and the receiver waits for its i-th payload. */
  predicate SenderInside(s: State, i: nat) {
    s.sems == Some(Semaphores(0, 0)) && s.receiver == AskRead && s.received == Messages(i)
  }

  /** The set is gone and the receiver is on its way to "end" or past it. */
  predicate Closing(c: Config, s: State) {
    && s.sems == None && Holds(s.memory, "end")
    && match s.receiver
       case AskRead => s.received == Messages(c.n)
       case Reading(got) => got <= "end" && s.received == Messages(c.n)
       case Judge(m) => m == "end" && s.received == Messages(c.n)
       case Reply => false
       case _ => s.received == Messages(c.n) + ["end"]
  }

  predicate Inv(c: Config, s: State) {
    && |s.memory| == c.size
    && match s.sender
       case Set0 => SenderInside(s, 0)
       case Set1 => s.sems == Some(Semaphores(1, 0)) && s.receiver == AskRead && s.received == []
       case AskWrite(i) => AtAskWrite(c, s, i)
       case Writing(i, j) => i <= c.n && j <= |Payload(c, i)| < c.size && SenderInside(s, i) && s.memory[..j] == Payload(c, i)[..j]
       case Signal(i) => i < c.n && SenderInside(s, i) && Holds(s.memory, Payload(c, i))
       case SDetach => SenderInside(s, c.n) && Holds(s.memory, "end")
       case Remove => SenderInside(s, c.n) && Holds(s.memory, "end")
       case RemoveAgain => Closing(c, s)
       case SDone => Closing(c, s)
  }

  lemma WritingKeeps(c: Config, s: State)
    requires Inv(c, s) && Fits(c) && s.sender.Writing?
    ensures Inv(c, SenderStep(c, s))
  {
    var i, j := s.sender.i, s.sender.j;
    var t := SenderStep(c, s);
    if j < |Payload(c, i)| {
      assert t.memory[..j + 1] == Payload(c, i)[..j + 1];
    } else {
      assert Holds(t.memory, Payload(c, i));
    }
  }

  lemma SenderKeeps(c: Config, s: State)
    requires Inv(c, s) && Fits(c) && SenderEnabled(s)
    ensures Inv(c, SenderStep(c, s))
  {
    if s.sender.Writing? {
      WritingKeeps(c, s);
    }
  }

  /** Reading a held string goes on inside it and stops at its end. */
  lemma ReadsHeld(s: State, m: string)
    requires s.receiver.Reading? && s.receiver.got <= m && Holds(s.memory, m)
    requires forall j | 0 <= j < |m| :: m[j] != '\0'
    ensures var r := ReceiverStep(s).receiver;
            if s.receiver.got == m then r == Judge(m) else r.Reading? && r.got <= m && |r.got| == |s.receiver.got| + 1
  {
    var got := s.receiver.got;
    if got != m {
      assert s.memory[|got|] == s.memory[..|m|][|got|] == m[|got|];
    }
  }

  lemma ReceiverKeepsAsk(c: Config, s: State, i: nat)
    requires s.sender == AskWrite(i) && AtAskWrite(c, s, i) && ReceiverEnabled(s)
    ensures AtAskWrite(c, ReceiverStep(s), i)
  {
    if i > 0 {
      PayloadClean(c, i - 1);
      if s.receiver.Reading? {
        ReadsHeld(s, Payload(c, i - 1));
      } else if s.receiver.Judge? {
        assert Messages(i - 1) + [Message(i - 1)] == Messages(i);
      }
    }
  }

  lemma ReceiverKeepsClosing(c: Config, s: State)
    requires Closing(c, s) && ReceiverEnabled(s)
    ensures Closing(c, ReceiverStep(s))
  {
    if s.receiver.Reading? {
      ReadsHeld(s, "end");
    }
  }

  lemma ReceiverKeeps(c: Config, s: State)
    requires Inv(c, s) && ReceiverEnabled(s)
    ensures Inv(c, ReceiverStep(s))
  {
    match s.sender
    case AskWrite(i) => ReceiverKeepsAsk(c, s, i);
    case RemoveAgain => ReceiverKeepsClosing(c, s);
    case SDone => ReceiverKeepsClosing(c, s);
    case _ =>
  }

  lemma {:induction false} Invariant(c: Config, run: seq<State>, i: nat)
    requires IsRun(c, run) && Fits(c) && i < |run|
    ensures Inv(c, run[i])
  {
    if i > 0 {
      Invariant(c, run, i - 1);
      assert Next(c, run[i - 1], run[i]);
      if SenderEnabled(run[i - 1]) && run[i] == SenderStep(c, run[i - 1]) {
        SenderKeeps(c, run[i - 1]);
      } else {
        ReceiverKeeps(c, run[i - 1]);
      }
    }
  }

  // ----- Termination -----

  /** The steps the sender has left from its i-th P on. */
  function SenderCost(c: Config, i: nat): nat
    decreases c.n - i
  {
    1 + |Payload(c, i)| + 1 + SenderRest(c, i)
  }

  function SenderRest(c: Config, i: nat): nat
    decreases c.n - i, 0
  {
    if i < c.n then 1 + SenderCost(c, i + 1) else 3
  }

  /** The steps the receiver has left from its P for message k on, and after judging it. */
  function ReceiverCost(c: Config, k: nat): nat
    decreases c.n - k
  {
    1 + |Payload(c, k)| + 1 + 1 + ReceiverRest(c, k)
  }

  function ReceiverRest(c: Config, k: nat): nat
    decreases c.n - k, 0
  {
    if k < c.n then 1 + ReceiverCost(c, k + 1) else 3
  }

  function SenderLeft(c: Config, s: State): int {
    match s.sender
    case Set0 => 2 + SenderCost(c, 0)
    case Set1 => 1 + SenderCost(c, 0)
    case AskWrite(i) => SenderCost(c, i)
    case Writing(i, j) => |Payload(c, i)| - j + 1 + SenderRest(c, i)
    case Signal(i) => SenderRest(c, i)
    case SDetach => 3
    case Remove => 2
    case RemoveAgain => 1
    case SDone => 0
  }

  function ReceiverLeft(c: Config, s: State): int {
    var k := |s.received|;
    match s.receiver
    case AskRead => ReceiverCost(c, k)
    case Reading(got) => |Payload(c, k)| - |got| + 1 + 1 + ReceiverRest(c, k)
    case Judge(_) => 1 + ReceiverRest(c, k)
    case Reply => 1 + ReceiverCost(c, k)
    case RDetach => 3
    case RemoveMemory => 2
    case RemoveSet => 1
    case RDone => 0
  }

  /** The steps left in all, for the sender and the receiver together. */
  function Left(c: Config, s: State): int {
    SenderLeft(c, s) + ReceiverLeft(c, s)
  }

  lemma SenderCounts(c: Config, s: State)
    requires Inv(c, s) && Fits(c) && SenderEnabled(s)
    ensures Left(c, SenderStep(c, s)) == Left(c, s) - 1
  {
  }

  lemma ReceiverCounts(c: Config, s: State)
    requires Inv(c, s) && ReceiverEnabled(s)
    ensures Left(c, ReceiverStep(s)) == Left(c, s) - 1
  {
    PayloadClean(c, |s.received|);
    if s.receiver.Reading? {
      ReadsHeld(s, Payload(c, |s.received|));
    }
  }

  /** As long as a step is left, one of the two processes can move. */
  lemma NeverStuck(c: Config, s: State)
    requires Inv(c, s)
    ensures Left(c, s) >= 0
    ensures Left(c, s) > 0 <==> SenderEnabled(s) || ReceiverEnabled(s)
    ensures Left(c, s) == 0 <==> s.sender == SDone && s.receiver == RDone
  {
  }

  lemma {:induction false} RunCounts(c: Config, run: seq<State>, i: nat)
    requires IsRun(c, run) && Fits(c) && i < |run|
    ensures Left(c, run[i]) == 2 + SenderCost(c, 0) + ReceiverCost(c, 0) - i
  {
    if i > 0 {
      RunCounts(c, run, i - 1);
      Invariant(c, run, i - 1);
      assert Next(c, run[i - 1], run[i]);
      if SenderEnabled(run[i - 1]) && run[i] == SenderStep(c, run[i - 1]) {
        SenderCounts(c, run[i - 1]);
      } else {
        ReceiverCounts(c, run[i - 1]);
      }
    }
  }

  // ----- The properties -----

  /** The receiver gets the messages once each and in order, then "end", and nothing else. */
  lemma InOrder(c: Config, run: seq<State>, i: nat)
    requires IsRun(c, run) && Fits(c) && i < |run|
    ensures run[i].received <= Messages(c.n) + ["end"] && CountUp(run[i].received, c.n)
  {
    Invariant(c, run, i);
    var s := run[i];
    var all := Messages(c.n) + ["end"];
    if |s.received| <= c.n {
      assert s.received == Messages(|s.received|);
      assert s.received == all[..|s.received|];
    }
    PrefixCountsUp(s.received, c.n);
  }

  /** Every interleaving ends, after the same number of steps, and only with all messages and
      "end" delivered and both processes finished; until then one of them can always move. */
  lemma AllDelivered(c: Config, run: seq<State>)
    requires IsRun(c, run) && Fits(c)
    ensures |run| <= 3 + SenderCost(c, 0) + ReceiverCost(c, 0)
    ensures var s := run[|run| - 1];
            |run| == 3 + SenderCost(c, 0) + ReceiverCost(c, 0) <==> !SenderEnabled(s) && !ReceiverEnabled(s)
    ensures var s := run[|run| - 1];
            !SenderEnabled(s) && !ReceiverEnabled(s) ==>
              s.sender == SDone && s.receiver == RDone && s.received == Messages(c.n) + ["end"] && CountUp(s.received, c.n)
  {
    var i := |run| - 1;
    RunCounts(c, run, i);
    Invariant(c, run, i);
    NeverStuck(c, run[i]);
    InOrder(c, run, i);
  }

  function SenderInsideCount(s: State): nat {
    if s.sender.Writing? || s.sender.Signal? || s.sender.SDetach? || s.sender.Remove? then 1 else 0
  }

  function ReceiverInsideCount(s: State): nat {
    if s.receiver.Reading? || s.receiver.Judge? || s.receiver.Reply? then 1 else 0
  }

  /** One permit: until the set is removed, exactly one of the two semaphores and the two
      processes holds it. So no one reads while a message is being written. */
  lemma OnePermit(c: Config, run: seq<State>, i: nat)
    requires IsRun(c, run) && Fits(c) && i < |run|
    requires !run[i].sender.Set0? && run[i].sems.Some?
    ensures var s := run[i]; s.sems.value.write + s.sems.value.read + SenderInsideCount(s) + ReceiverInsideCount(s) == 1
  {
    Invariant(c, run, i);
  }

  /** What the receiver judges is always the next payload, complete; so the branch for an empty
      string, which would skip the V, is never taken. */
  lemma NoTornRead(c: Config, run: seq<State>, i: nat)
    requires IsRun(c, run) && Fits(c) && i < |run| && run[i].receiver.Judge?
    ensures run[i].receiver.message == Payload(c, |run[i].received|) && run[i].receiver.message != ""
  {
    Invariant(c, run, i);
    PayloadClean(c, |run[i].received|);
  }

  /** The set is removed only when "end" is completely written, the shared memory only after
      the sender has detached it, and every access stays inside it. */
  lemma OrderlyRemoval(c: Config, run: seq<State>, i: nat)
    requires IsRun(c, run) && Fits(c) && i < |run|
    ensures run[i].sems == None ==> Holds(run[i].memory, "end")
    ensures run[i].receiver.RemoveMemory? || run[i].receiver.RemoveSet? || run[i].receiver.RDone? ==>
              run[i].sender.RemoveAgain? || run[i].sender.SDone?
    ensures run[i].sender.Writing? ==> run[i].sender.j < |run[i].memory|
    ensures run[i].receiver.Reading? ==> |run[i].receiver.got| < |run[i].memory|
  {
    Invariant(c, run, i);
  }

  // ----- The buffer of 30 bytes -----

  function Pow10(k: nat): nat {
    if k == 0 then 1 else 10 * Pow10(k - 1)
  }

  lemma {:induction false} DecimalLength(n: nat, k: nat)
    requires k > 0
    ensures |Decimal(n)| <= k <==> n < Pow10(k)
    decreases k
  {
    if n >= 10 && k > 1 {
      DecimalLength(n / 10, k - 1);
    } else if n >= 10 {
      assert |Decimal(n / 10)| >= 1;
    } else if k > 1 {
      DecimalLength(0, k - 1);
    }
  }

  /** 30 bytes are enough for the messages of any run that counts below ten billion, so for the
      20 messages of the program, and for no longer one. */
  lemma ThirtyBytes(n: nat)
    ensures Fits(Config(n, 30)) <==> n < 10_000_000_000
  {
    var c := Config(n, 30);
    var p := "shared memory test ";
    assert |p| == 19;
    assert Pow10(10) == 10_000_000_000;
    forall i: nat | i <= c.n
      ensures |Payload(c, i)| < 30 <==> i >= n || i + 1 < 10_000_000_000
    {
      DecimalLength(i + 1, 10);
    }
    if n >= 10_000_000_000 {
      assert !(|Payload(c, n - 1)| < 30);
    }
  }
}
