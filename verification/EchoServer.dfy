/** The echo server over edge-triggered epoll (ch09/chattingProgram/ex06.c): a state machine of
    the event loop, the kernel's ready list and the clients, over all arrivals, batches,
    closes and reuses of descriptors; and the inner read loop as it stands, over its one shared
    buffer. */
module EchoServer {
  import opened Sums

  const MAX_LINE: nat := 10
  const MAX_EVENTS: nat := 50

  // ----- The shared buffer -----

  /** `read` overwrites the front of the buffer and leaves the rest as it was. */
  function Overlay(buffer: string, chunk: string): (after: string)
    requires |chunk| <= |buffer|
    ensures |after| == |buffer|
  {
    chunk + buffer[|chunk|..]
  }

  /** `strncmp(buffer, "...", 3) == 0`, which looks at three bytes however few were read. */
  predicate StartsWithDots(buffer: string)
    requires |buffer| >= 3
  {
    buffer[..3] == "..."
  }

  lemma DotsAre(buffer: string)
    requires |buffer| >= 3
    ensures StartsWithDots(buffer) <==> buffer[0] == '.' && buffer[1] == '.' && buffer[2] == '.'
  {
    assert buffer[..3] == [buffer[0], buffer[1], buffer[2]];
    if StartsWithDots(buffer) {
      assert buffer[0] == "..."[0] && buffer[1] == "..."[1] && buffer[2] == "..."[2];
    }
  }

  predicate IsChunk(chunk: string) {
    1 <= |chunk| <= MAX_LINE
  }

  ghost predicate AreChunks(chunks: seq<string>) {
    forall k | 0 <= k < |chunks| :: IsChunk(chunks[k])
  }

  /** The buffer after all these reads, whoever they were for. */
  function AfterReads(buffer: string, chunks: seq<string>): (after: string)
    requires |buffer| == MAX_LINE && AreChunks(chunks)
    ensures |after| == MAX_LINE
  {
    if chunks == [] then buffer
    else
      var last := |chunks| - 1;
      assert IsChunk(chunks[last]);
      assert AreChunks(chunks[..last]);
      Overlay(AfterReads(buffer, chunks[..last]), chunks[last])
  }

  /** The byte last read into position p, if any chunk was that long. */
  function LastAt(buffer: string, chunks: seq<string>, p: nat): char
    requires p < |buffer|
  {
    if chunks == [] then buffer[p]
    else if p < |chunks[|chunks| - 1]| then chunks[|chunks| - 1][p]
    else LastAt(buffer, chunks[..|chunks| - 1], p)
  }

  lemma {:induction false} AfterReadsAt(buffer: string, chunks: seq<string>, p: nat)
    requires |buffer| == MAX_LINE && AreChunks(chunks) && p < MAX_LINE
    ensures AfterReads(buffer, chunks)[p] == LastAt(buffer, chunks, p)
  {
    if chunks != [] {
      var last := |chunks| - 1;
      assert IsChunk(chunks[last]);
      assert AreChunks(chunks[..last]);
      AfterReadsAt(buffer, chunks[..last], p);
    }
  }

  /** The test fires exactly when, at each of the first three positions, the last chunk long
      enough to reach it had a dot there. */
  lemma FiresExactly(buffer: string, chunks: seq<string>)
    requires |buffer| == MAX_LINE && AreChunks(chunks)
    ensures StartsWithDots(AfterReads(buffer, chunks)) <==> forall p | 0 <= p < 3 :: LastAt(buffer, chunks, p) == '.'
  {
    var after := AfterReads(buffer, chunks);
    AfterReadsAt(buffer, chunks, 0);
    AfterReadsAt(buffer, chunks, 1);
    AfterReadsAt(buffer, chunks, 2);
    DotsAre(after);
    assert after[0] == LastAt(buffer, chunks, 0) && after[1] == LastAt(buffer, chunks, 1) && after[2] == LastAt(buffer, chunks, 2);
  }

  // ----- The clients and the kernel -----

  /** Why the server closed a connection: the peer had closed it, the test fired on this chunk,
      or a read failed. */
  datatype Cause = Eof | Dots(chunk: string) | Failed

  datatype Stage = Queued | Open(fd: int) | Closed(cause: Cause)

  /** All bytes that came from the client, those not yet read, those read, and those written
      back to it. */
  datatype Conn = Conn(sent: string, unread: string, hungUp: bool, broken: bool,
                       consumed: string, echoed: string, stage: Stage)

  const NewConn: Conn := Conn("", "", false, false, "", "", Queued)

  predicate Readable(c: Conn) {
    c.unread != "" || c.hungUp || c.broken
  }

  /** An event names a descriptor only; the connection is what it stood for when reported. */
  datatype Event = Listen | Client(fd: int, conn: nat)

  /** Where the loop is: taking the next event (or waiting, when none is left), between `accept`
      and EPOLL_CTL_ADD, in the read loop, or between its end and `close`. */
  datatype Pc =
    | Next
    | Adding(fd: int)
    | Draining(fd: int) | Got(fd: int, n: nat) | Writing(fd: int, n: nat)
    | Deleting(fd: int, cause: Cause) | Closing(fd: int, cause: Cause)
    | Exited

  /** `files` is the descriptor table, `watched` the epoll set (without the listening socket),
      `ready` its ready list, `rest` what is left of the batch; `chunks` records all reads. */
  datatype State = State(conns: seq<Conn>, backlog: seq<nat>, files: map<int, nat>, watched: set<int>, ready: set<int>,
                         rest: seq<Event>, pc: Pc, buffer: string, chunks: seq<string>)

  datatype Step =
    | Connect | Send(c: nat, bytes: string) | HangUp(c: nat) | Break(c: nat)
    | Poll(batch: seq<Event>, stale: set<int>)
    | Accept(fd: int) | AcceptFails | Add | AddFails
    | Begin | Read(n: nat) | ReadNothing | ReadFails | Test | Write | WriteFails
    | Delete | Close

  predicate Init(s: State) {
    && |s.buffer| == MAX_LINE
    && s == State([], [], map[], {}, {}, [], Next, s.buffer, [])
  }

  // ----- The steps -----

  predicate Known(s: State, fd: int) {
    fd in s.files && s.files[fd] < |s.conns|
  }

  function At(s: State, fd: int): Conn
    requires Known(s, fd)
  {
    s.conns[s.files[fd]]
  }

  predicate CanArrive(s: State, c: nat) {
    c < |s.conns| && !s.conns[c].stage.Closed? && !s.conns[c].hungUp && !s.conns[c].broken
  }

  /** What `epoll_wait` may report: no descriptor twice, and only what can be read or accepted. */
  predicate Reportable(s: State, batch: seq<Event>) {
    && |batch| <= MAX_EVENTS
    && (forall i, j | 0 <= i < j < |batch| :: batch[i] != batch[j])
    && forall i | 0 <= i < |batch| ::
         match batch[i]
         case Listen => s.backlog != []
         case Client(fd, c) => fd in s.ready && Known(s, fd) && s.files[fd] == c && Readable(At(s, fd))
  }

  predicate Enabled(s: State, step: Step) {
    match step
    case Connect => true
    case Send(c, bytes) => CanArrive(s, c) && bytes != ""
    case HangUp(c) => CanArrive(s, c)
    case Break(c) => CanArrive(s, c)
    case Poll(batch, stale) =>
      && s.pc.Next? && s.rest == [] && Reportable(s, batch)
      && stale <= s.ready && forall fd | fd in stale :: Known(s, fd) && !Readable(At(s, fd))
    case Accept(fd) =>
      && s.pc.Next? && s.rest != [] && s.rest[0].Listen?
      && s.backlog != [] && s.backlog[0] < |s.conns| && fd > 0 && fd !in s.files
    case AcceptFails => s.pc.Next? && s.rest != [] && s.rest[0].Listen? && s.backlog != []
    case Add => s.pc.Adding? && Known(s, s.pc.fd)
    case AddFails => s.pc.Adding?
    case Begin => s.pc.Next? && s.rest != [] && s.rest[0].Client?
    case Read(n) => s.pc.Draining? && Known(s, s.pc.fd) && 1 <= n <= MAX_LINE && n <= |At(s, s.pc.fd).unread| && |s.buffer| == MAX_LINE
    case ReadNothing => s.pc.Draining? && Known(s, s.pc.fd) && At(s, s.pc.fd).unread == "" && !At(s, s.pc.fd).broken
    case ReadFails => s.pc.Draining? && Known(s, s.pc.fd) && At(s, s.pc.fd).broken
    case Test => s.pc.Got? && |s.buffer| == MAX_LINE && s.pc.n <= MAX_LINE
    case Write => s.pc.Writing? && Known(s, s.pc.fd) && s.pc.n <= |s.buffer|
    case WriteFails => s.pc.Writing?
    case Delete => s.pc.Deleting?
    case Close => s.pc.Closing? && Known(s, s.pc.fd)
  }

  /** Anything that arrives puts a watched descriptor on the ready list. */
  function Woken(s: State, c: nat): set<int>
    requires c < |s.conns|
  {
    if s.conns[c].stage.Open? && s.conns[c].stage.fd in s.watched then s.ready + {s.conns[c].stage.fd} else s.ready
  }

  function Arrive(s: State, c: nat, conn: Conn): State
    requires c < |s.conns|
  {
    s.(conns := s.conns[c := conn], ready := Woken(s, c))
  }

  function Fds(batch: seq<Event>): set<int> {
    set k | 0 <= k < |batch| && batch[k].Client? :: batch[k].fd
  }

  function Apply(s: State, step: Step): State
    requires Enabled(s, step)
  {
    match step
    case Connect => s.(conns := s.conns + [NewConn], backlog := s.backlog + [|s.conns|])
    case Send(c, bytes) => Arrive(s, c, s.conns[c].(sent := s.conns[c].sent + bytes, unread := s.conns[c].unread + bytes))
    case HangUp(c) => Arrive(s, c, s.conns[c].(hungUp := true))
    case Break(c) => Arrive(s, c, s.conns[c].(broken := true))
    case Poll(batch, stale) => s.(rest := batch, ready := s.ready - Fds(batch) - stale)
    case Accept(fd) =>
      var c := s.backlog[0];
      s.(conns := s.conns[c := s.conns[c].(stage := Open(fd))], backlog := s.backlog[1..], files := s.files[fd := c],
      rest := s.rest[1..], pc := Adding(fd))
    case AcceptFails => s.(rest := s.rest[1..])
    case Add =>
      s.(watched := s.watched + {s.pc.fd}, ready := if Readable(At(s, s.pc.fd)) then s.ready + {s.pc.fd} else s.ready, pc := Next)
    case AddFails => s.(pc := Exited)
    case Begin => s.(rest := s.rest[1..], pc := Draining(s.rest[0].fd))
    case Read(n) =>
      var conn := At(s, s.pc.fd);
      s.(conns := s.conns[s.files[s.pc.fd] := conn.(unread := conn.unread[n..], consumed := conn.consumed + conn.unread[..n])],
      buffer := Overlay(s.buffer, conn.unread[..n]), chunks := s.chunks + [conn.unread[..n]], pc := Got(s.pc.fd, n))
    case ReadNothing => s.(pc := if At(s, s.pc.fd).hungUp then Deleting(s.pc.fd, Eof) else Next)
    case ReadFails => s.(pc := Deleting(s.pc.fd, Failed))
    case Test => s.(pc := if StartsWithDots(s.buffer) then Deleting(s.pc.fd, Dots(s.buffer[..s.pc.n])) else Writing(s.pc.fd, s.pc.n))
    case Write =>
      var conn := At(s, s.pc.fd);
      s.(conns := s.conns[s.files[s.pc.fd] := conn.(echoed := conn.echoed + s.buffer[..s.pc.n])], pc := Draining(s.pc.fd))
    case WriteFails => s.(pc := Exited)
    case Delete => s.(watched := s.watched - {s.pc.fd}, ready := s.ready - {s.pc.fd}, pc := Closing(s.pc.fd, s.pc.cause))
    case Close =>
      s.(conns := s.conns[s.files[s.pc.fd] := At(s, s.pc.fd).(stage := Closed(s.pc.cause))], files := s.files - {s.pc.fd}, pc := Next)
  }

  ghost predicate Moves(s: State, step: Step, t: State) {
    !s.pc.Exited? && Enabled(s, step) && t == Apply(s, step)
  }

  ghost predicate IsRun(run: seq<State>, steps: seq<Step>) {
    && |run| == |steps| + 1 && Init(run[0])
    && forall i | 0 <= i < |steps| :: Moves(run[i], steps[i], run[i + 1])
  }

  // ----- The invariant -----

  /** The descriptor table and the open connections name each other. */
  predicate FilesSound(conns: seq<Conn>, files: map<int, nat>) {
    && (forall fd | fd in files :: files[fd] < |conns| && conns[files[fd]].stage == Open(fd))
    && (forall c | 0 <= c < |conns| && conns[c].stage.Open? :: conns[c].stage.fd in files && files[conns[c].stage.fd] == c)
  }

  predicate BacklogSound(conns: seq<Conn>, backlog: seq<nat>) {
    && (forall k | 0 <= k < |backlog| :: backlog[k] < |conns| && conns[backlog[k]].stage.Queued?)
    && (forall j, k | 0 <= j < k < |backlog| :: backlog[j] != backlog[k])
  }

  /** The read loop, up to the removal from the epoll set, on descriptor fd. */
  predicate Serving(pc: Pc, fd: int) {
    (pc.Draining? || pc.Got? || pc.Writing? || pc.Deleting?) && pc.fd == fd
  }

  predicate Between(pc: Pc, fd: int) {
    (pc.Adding? || pc.Closing?) && pc.fd == fd
  }

  predicate WatchSound(files: map<int, nat>, watched: set<int>, ready: set<int>, pc: Pc) {
    && ready <= watched
    && (forall fd | fd in watched :: fd in files && !Between(pc, fd))
    && (forall fd | fd in files && fd !in watched :: Between(pc, fd))
    && (!pc.Next? && !pc.Exited? ==> pc.fd in files && (Serving(pc, pc.fd) ==> pc.fd in watched))
  }

  /** The rest of the batch: no event twice, each naming the connection it was reported for,
      still open and watched, and not the one being served. */
  predicate BatchSound(files: map<int, nat>, watched: set<int>, backlog: seq<nat>, rest: seq<Event>, pc: Pc) {
    && (forall i, j | 0 <= i < j < |rest| :: rest[i] != rest[j])
    && forall i | 0 <= i < |rest| ::
         match rest[i]
         case Listen => backlog != []
         case Client(fd, c) => fd in watched && fd in files && files[fd] == c && !Serving(pc, fd)
  }

  /** No event is lost. */
  predicate NotLost(s: State) {
    forall fd | fd in s.watched && Known(s, fd) && Readable(At(s, fd)) ::
      fd in s.ready || Client(fd, s.files[fd]) in s.rest || Serving(s.pc, fd)
  }

  /** What has been read for this descriptor but not yet been written back. */
  function InFlight(pc: Pc, fd: int, buffer: string): string {
    match pc
    case Got(f, n) => if f == fd && n <= |buffer| then buffer[..n] else ""
    case Writing(f, n) => if f == fd && n <= |buffer| then buffer[..n] else ""
    case Deleting(f, cause) => if f == fd && cause.Dots? then cause.chunk else ""
    case Closing(f, cause) => if f == fd && cause.Dots? then cause.chunk else ""
    case _ => ""
  }

  /** Every byte that arrived is unread or was read, and every byte read from a closed
      connection was echoed but for the chunk on which the test fired. */
  predicate ConnSound(c: Conn) {
    && c.sent == c.consumed + c.unread
    && match c.stage
       case Queued => c.consumed == "" && c.echoed == ""
       case Open(_) => true
       case Closed(Eof) => c.unread == "" && c.hungUp && c.consumed == c.echoed
       case Closed(Dots(chunk)) => c.consumed == c.echoed + chunk
       case Closed(Failed) => c.broken && c.consumed == c.echoed
  }

  predicate OpenSound(c: Conn, fd: int, pc: Pc, buffer: string) {
    && c.consumed == c.echoed + InFlight(pc, fd, buffer)
    && ((pc.Deleting? || pc.Closing?) && pc.fd == fd ==>
          && (pc.cause.Eof? ==> c.unread == "" && c.hungUp)
          && (pc.cause.Failed? ==> c.broken))
  }

  predicate SoundAt(s: State, c: nat)
    requires c < |s.conns|
  {
    ConnSound(s.conns[c]) && (s.conns[c].stage.Open? ==> OpenSound(s.conns[c], s.conns[c].stage.fd, s.pc, s.buffer))
  }

  predicate BufferSound(pc: Pc, buffer: string) {
    |buffer| == MAX_LINE && (pc.Got? || pc.Writing? ==> 1 <= pc.n <= MAX_LINE)
  }

  predicate BytesSound(s: State) {
    forall c | 0 <= c < |s.conns| :: SoundAt(s, c)
  }

  predicate TablesSound(s: State) {
    && FilesSound(s.conns, s.files) && BacklogSound(s.conns, s.backlog)
    && WatchSound(s.files, s.watched, s.ready, s.pc) && BatchSound(s.files, s.watched, s.backlog, s.rest, s.pc)
  }

  predicate Inv(s: State) {
    TablesSound(s) && NotLost(s) && BufferSound(s.pc, s.buffer) && BytesSound(s)
  }

  lemma FilesKeep(s: State, step: Step)
    requires TablesSound(s) && Enabled(s, step)
    ensures FilesSound(Apply(s, step).conns, Apply(s, step).files)
  {
  }

  lemma BacklogKeeps(s: State, step: Step)
    requires TablesSound(s) && Enabled(s, step)
    ensures BacklogSound(Apply(s, step).conns, Apply(s, step).backlog)
  {
  }

  lemma WatchKeeps(s: State, step: Step)
    requires TablesSound(s) && Enabled(s, step) && !step.AddFails? && !step.WriteFails?
    ensures var t := Apply(s, step); WatchSound(t.files, t.watched, t.ready, t.pc)
  {
  }

  lemma BatchKeeps(s: State, step: Step)
    requires TablesSound(s) && Enabled(s, step)
    ensures var t := Apply(s, step); BatchSound(t.files, t.watched, t.backlog, t.rest, t.pc)
  {
  }

  lemma NothingLost(s: State, step: Step)
    requires Inv(s) && Enabled(s, step) && !step.AddFails? && !step.WriteFails?
    ensures NotLost(Apply(s, step))
  {
  }

  /** Reading n bytes moves them from unread to consumed, and puts them in front of the buffer. */
  lemma ReadMoves(c: Conn, n: nat, buffer: string)
    requires n <= |c.unread| && n <= |buffer|
    ensures (c.consumed + c.unread[..n]) + c.unread[n..] == c.consumed + c.unread
    ensures Overlay(buffer, c.unread[..n])[..n] == c.unread[..n]
  {
    assert c.unread[..n] + c.unread[n..] == c.unread;
  }

  ghost predicate KeepsBytes(s: State, step: Step) {
    && TablesSound(s) && BufferSound(s.pc, s.buffer) && BytesSound(s) && Enabled(s, step) && !step.AddFails? && !step.WriteFails?
  }

  lemma ReadKeepsAt(s: State, n: nat, c: nat)
    requires KeepsBytes(s, Read(n)) && c < |s.conns|
    ensures SoundAt(Apply(s, Read(n)), c)
  {
    assert SoundAt(s, c);
    ReadMoves(s.conns[s.files[s.pc.fd]], n, s.buffer);
  }

  lemma WriteKeepsAt(s: State, c: nat)
    requires KeepsBytes(s, Write) && c < |s.conns|
    ensures SoundAt(Apply(s, Write), c)
  {
    assert SoundAt(s, c);
  }

  lemma ArrivalKeepsAt(s: State, step: Step, c: nat)
    requires KeepsBytes(s, step) && (step.Connect? || step.Send? || step.HangUp? || step.Break?)
    requires c < |Apply(s, step).conns|
    ensures SoundAt(Apply(s, step), c)
  {
    if c < |s.conns| {
      assert SoundAt(s, c);
    }
  }

  /** Steps that change a connection's stage. */
  lemma TablesKeepAt(s: State, step: Step, c: nat)
    requires KeepsBytes(s, step) && (step.Accept? || step.Close?) && c < |s.conns|
    ensures SoundAt(Apply(s, step), c)
  {
    assert SoundAt(s, c);
  }

  /** Steps that change no connection. */
  lemma LoopKeepsAt(s: State, step: Step, c: nat)
    requires KeepsBytes(s, step) && c < |s.conns|
    requires step.Poll? || step.AcceptFails? || step.Add? || step.Begin? || step.Delete?
    ensures SoundAt(Apply(s, step), c)
  {
    assert SoundAt(s, c);
  }

  lemma TestKeepsAt(s: State, step: Step, c: nat)
    requires KeepsBytes(s, step) && c < |s.conns| && (step.ReadNothing? || step.ReadFails? || step.Test?)
    ensures SoundAt(Apply(s, step), c)
  {
    assert SoundAt(s, c);
  }

  lemma BytesKeepAt(s: State, step: Step, c: nat)
    requires KeepsBytes(s, step) && c < |Apply(s, step).conns|
    ensures SoundAt(Apply(s, step), c)
  {
    match step
    case Read(n) => ReadKeepsAt(s, n, c);
    case Write => WriteKeepsAt(s, c);
    case Connect => ArrivalKeepsAt(s, step, c);
    case Send(_, _) => ArrivalKeepsAt(s, step, c);
    case HangUp(_) => ArrivalKeepsAt(s, step, c);
    case Break(_) => ArrivalKeepsAt(s, step, c);
    case Accept(_) => TablesKeepAt(s, step, c);
    case Close => TablesKeepAt(s, step, c);
    case Test => TestKeepsAt(s, step, c);
    case ReadNothing => TestKeepsAt(s, step, c);
    case ReadFails => TestKeepsAt(s, step, c);
    case _ => LoopKeepsAt(s, step, c);
  }

  lemma BytesKeep(s: State, step: Step)
    requires KeepsBytes(s, step)
    ensures BytesSound(Apply(s, step))
  {
    var t := Apply(s, step);
    forall c | 0 <= c < |t.conns|
      ensures SoundAt(t, c)
    {
      BytesKeepAt(s, step, c);
    }
  }

  lemma BufferKeeps(s: State, step: Step)
    requires BufferSound(s.pc, s.buffer) && Enabled(s, step)
    ensures BufferSound(Apply(s, step).pc, Apply(s, step).buffer)
  {
  }

  lemma Keeps(s: State, step: Step)
    requires Inv(s) && Enabled(s, step) && !step.AddFails? && !step.WriteFails?
    ensures Inv(Apply(s, step))
  {
    FilesKeep(s, step);
    BacklogKeeps(s, step);
    WatchKeeps(s, step);
    BatchKeeps(s, step);
    NothingLost(s, step);
    BytesKeep(s, step);
    BufferKeeps(s, step);
  }

  /** The server exits on a failed EPOLL_CTL_ADD or `write`; until then the invariant holds. */
  lemma {:induction false} Invariant(run: seq<State>, steps: seq<Step>, i: nat)
    requires IsRun(run, steps) && i < |run|
    ensures run[i].pc.Exited? || Inv(run[i])
  {
    if i > 0 {
      Invariant(run, steps, i - 1);
      assert Moves(run[i - 1], steps[i - 1], run[i]);
      if !steps[i - 1].AddFails? && !steps[i - 1].WriteFails? {
        Keeps(run[i - 1], steps[i - 1]);
      }
    }
  }

  // ----- No event is lost -----

  /** In every reachable state, a watched client with something to read is on the ready list, in
      the unprocessed rest of the batch, or the one being served; and a client is unwatched only
      between `accept` and EPOLL_CTL_ADD, or between EPOLL_CTL_DEL and `close`. */
  lemma NoLostEvent(run: seq<State>, steps: seq<Step>, i: nat, c: nat)
    requires IsRun(run, steps) && i < |run| && !run[i].pc.Exited?
    requires c < |run[i].conns| && run[i].conns[c].stage.Open?
    ensures var s := run[i]; var fd := s.conns[c].stage.fd;
            && (fd in s.watched && (s.conns[c].unread != "" || s.conns[c].hungUp || s.conns[c].broken) ==>
                  fd in s.ready || Client(fd, c) in s.rest || Serving(s.pc, fd))
            && (fd !in s.watched ==> Between(s.pc, fd))
  {
    Invariant(run, steps, i);
  }

  /** `epoll_wait` has nothing to report. */
  predicate Blocked(s: State) {
    s.pc.Next? && s.rest == [] && s.backlog == [] && forall fd | fd in s.ready && Known(s, fd) :: !Readable(At(s, fd))
  }

  /** So when `epoll_wait` blocks, every open client has got back all it sent, and no client
      that has hung up is still open. */
  lemma BlockedMeansServed(run: seq<State>, steps: seq<Step>, i: nat, c: nat)
    requires IsRun(run, steps) && i < |run| && Blocked(run[i])
    requires c < |run[i].conns| && run[i].conns[c].stage.Open?
    ensures var conn := run[i].conns[c]; !conn.hungUp && !conn.broken && conn.echoed == conn.sent
  {
    Invariant(run, steps, i);
    NoLostEvent(run, steps, i, c);
    assert SoundAt(run[i], c);
  }

  // ----- Batches and descriptors -----

  /** Despite the closes, accepts and reuses of descriptors earlier in the batch, each event
      left still names the connection it was reported for, open and watched; and a connection
      waits for each `accept`. */
  lemma BatchValid(run: seq<State>, steps: seq<Step>, i: nat, k: nat)
    requires IsRun(run, steps) && i < |run| && !run[i].pc.Exited? && k < |run[i].rest|
    ensures var s := run[i];
            match s.rest[k]
            case Listen => s.backlog != []
            case Client(fd, c) => fd in s.watched && c < |s.conns| && s.conns[c].stage == Open(fd) && !Serving(s.pc, fd)
  {
    Invariant(run, steps, i);
  }

  predicate ServerStep(step: Step) {
    !step.Connect? && !step.Send? && !step.HangUp? && !step.Break?
  }

  /** A step of the loop that gets on: no failing call but a read, and no wake-up for nothing. */
  predicate Productive(step: Step) {
    && ServerStep(step) && !step.AcceptFails? && !step.AddFails? && !step.WriteFails?
    && (step.Poll? ==> step.batch != [])
  }

  /** A read on an open descriptor returns bytes, nothing, or an error. */
  lemma SomeRead(s: State)
    requires s.pc.Draining? && Known(s, s.pc.fd) && |s.buffer| == MAX_LINE
    ensures exists step :: Productive(step) && Enabled(s, step)
  {
    if At(s, s.pc.fd).broken {
      assert Enabled(s, ReadFails);
    } else if At(s, s.pc.fd).unread == "" {
      assert Enabled(s, ReadNothing);
    } else {
      assert Enabled(s, Read(1));
    }
  }

  /** The loop works on open descriptors only, and never blocks outside `epoll_wait`. */
  lemma NeverBlocks(run: seq<State>, steps: seq<Step>, i: nat)
    requires IsRun(run, steps) && i < |run| && !run[i].pc.Exited?
    ensures var s := run[i];
            !s.pc.Next? ==> s.pc.fd in s.files && s.files[s.pc.fd] < |s.conns| && s.conns[s.files[s.pc.fd]].stage == Open(s.pc.fd)
    ensures exists step :: ServerStep(step) && Enabled(run[i], step)
  {
    Invariant(run, steps, i);
    var s := run[i];
    match s.pc
    case Next =>
      if s.rest == [] {
        assert Enabled(s, Poll([], {}));
      } else if s.rest[0].Listen? {
        assert Enabled(s, AcceptFails);
      } else {
        assert Enabled(s, Begin);
      }
    case Adding(fd) => assert Enabled(s, Add);
    case Draining(fd) => SomeRead(s);
    case Got(fd, n) => assert Enabled(s, Test);
    case Writing(fd, n) => assert Enabled(s, Write);
    case Deleting(fd, cause) => assert Enabled(s, Delete);
    case Closing(fd, cause) => assert Enabled(s, Close);
    case Exited =>
  }

  // ----- When the clients are quiet -----

  /** What the server still has to do for the connection where the loop is. */
  function PcCost(pc: Pc, fd: int): nat {
    match pc
    case Adding(f) => if f == fd then 10 else 0
    case Draining(f) => if f == fd then 5 else 0
    case Got(f, _) => if f == fd then 8 else 0
    case Writing(f, _) => if f == fd then 7 else 0
    case Deleting(f, _) => if f == fd then 3 else 0
    case Closing(f, _) => if f == fd then 2 else 0
    case _ => 0
  }

  function Cost(s: State, c: nat): nat
    requires c < |s.conns|
  {
    10 * |s.conns[c].unread| +
    match s.conns[c].stage
    case Queued => 12
    case Open(fd) => PcCost(s.pc, fd) + (if fd in s.ready then 7 else 0) + (if Client(fd, c) in s.rest then 6 else 0)
    case Closed(_) => 0
  }

  function Costs(s: State): (costs: seq<nat>)
    ensures |costs| == |s.conns| && forall c | 0 <= c < |costs| :: costs[c] == Cost(s, c)
  {
    seq(|s.conns|, c requires 0 <= c < |s.conns| => Cost(s, c))
  }

  /** A bound on the steps of the loop when no client does anything. */
  function Work(s: State): nat {
    Sum(Costs(s)) + if s.backlog != [] && Listen !in s.rest then 1 else 0
  }

  /** The connection a step works on. */
  function Subject(s: State, step: Step): nat {
    match step
    case Accept(_) => if s.backlog != [] then s.backlog[0] else 0
    case Begin => if s.rest != [] && s.rest[0].Client? then s.rest[0].conn else 0
    case _ => if !s.pc.Next? && !s.pc.Exited? && s.pc.fd in s.files then s.files[s.pc.fd] else 0
  }

  lemma CostFalls(s: State, step: Step, c: nat)
    requires Inv(s) && !s.pc.Exited? && Enabled(s, step) && ServerStep(step) && !step.Poll? && !step.AcceptFails?
    requires c < |s.conns|
    ensures Subject(s, step) < |s.conns|
    ensures Cost(Apply(s, step), c) + (if c != Subject(s, step) then 0 else if step.Accept? then 2 else 1) <= Cost(s, c)
  {
  }

  /** A reported client leaves the ready list for the batch. */
  lemma PollFalls(s: State, batch: seq<Event>, stale: set<int>, c: nat)
    requires Inv(s) && !s.pc.Exited? && Enabled(s, Poll(batch, stale)) && c < |s.conns|
    ensures var t := Apply(s, Poll(batch, stale));
            Cost(t, c) + (if s.conns[c].stage.Open? && Client(s.conns[c].stage.fd, c) in batch then 1 else 0) <= Cost(s, c)
  {
    if s.conns[c].stage.Open? && Client(s.conns[c].stage.fd, c) in batch {
      var k :| 0 <= k < |batch| && batch[k] == Client(s.conns[c].stage.fd, c);
      assert batch[k].fd in Fds(batch);
    }
  }

  lemma PollWorks(s: State, batch: seq<Event>, stale: set<int>)
    requires Inv(s) && !s.pc.Exited? && Enabled(s, Poll(batch, stale)) && batch != []
    ensures Work(Apply(s, Poll(batch, stale))) < Work(s)
  {
    var t := Apply(s, Poll(batch, stale));
    forall c | 0 <= c < |s.conns|
      ensures Costs(t)[c] <= Costs(s)[c]
    {
      PollFalls(s, batch, stale, c);
    }
    if batch[0].Listen? {
      assert Listen in t.rest;
      SumGrowsNot(Costs(s), Costs(t));
    } else {
      var c := batch[0].conn;
      assert s.conns[c].stage == Open(batch[0].fd) && batch[0] in batch;
      PollFalls(s, batch, stale, c);
      SumFalls(Costs(s), Costs(t), c, 1);
    }
  }

  lemma LoopWorks(s: State, step: Step)
    requires Inv(s) && !s.pc.Exited? && Enabled(s, step) && ServerStep(step) && !step.Poll? && !step.AcceptFails?
    ensures Work(Apply(s, step)) < Work(s)
  {
    var t, c := Apply(s, step), Subject(s, step);
    forall i | 0 <= i < |s.conns|
      ensures Costs(t)[i] <= Costs(s)[i]
    {
      CostFalls(s, step, i);
    }
    CostFalls(s, step, if c < |s.conns| then c else 0);
    SumFalls(Costs(s), Costs(t), c, if step.Accept? then 2 else 1);
  }

  /** An `accept` that fails, or a wake-up for nothing. */
  lemma SetbackWorks(s: State, step: Step)
    requires Inv(s) && !s.pc.Exited? && Enabled(s, step) && (step.AcceptFails? || (step.Poll? && step.batch == []))
    ensures Work(Apply(s, step)) <= Work(s) + 1
  {
    var t := Apply(s, step);
    forall c | 0 <= c < |s.conns|
      ensures Costs(t)[c] <= Costs(s)[c]
    {
      if step.Poll? {
        PollFalls(s, [], step.stale, c);
      }
    }
    SumGrowsNot(Costs(s), Costs(t));
  }

  /** What a step of a client can add to the work. */
  lemma ArrivalWorks(s: State, step: Step)
    requires Inv(s) && !s.pc.Exited? && Enabled(s, step) && (step.Send? || step.HangUp? || step.Break?)
    ensures Work(Apply(s, step)) <= Work(s) + 7 + if step.Send? then 10 * |step.bytes| else 0
  {
    var t := Apply(s, step);
    var more := 7 + if step.Send? then 10 * |step.bytes| else 0;
    forall c | 0 <= c < |s.conns|
      ensures Costs(t)[c] <= Costs(s)[c] + if c == step.c then more else 0
    {
    }
    SumFalls(Costs(s), Costs(t), step.c, -more);
  }

  lemma ConnectWorks(s: State)
    requires Inv(s) && !s.pc.Exited?
    ensures Work(Apply(s, Connect)) <= Work(s) + 13
  {
    var t := Apply(s, Connect);
    assert Costs(t)[..|s.conns|] == Costs(s);
  }

  /** The steps that a step allows at most: itself, and those it gives the loop to make. */
  function Allowance(step: Step): nat {
    match step
    case Connect => 14
    case Send(_, bytes) => 8 + 10 * |bytes|
    case HangUp(_) => 8
    case Break(_) => 8
    case AcceptFails => 2
    case Poll(batch, _) => if batch == [] then 2 else 0
    case _ => 0
  }

  lemma WorkPays(s: State, step: Step)
    requires Inv(s) && !s.pc.Exited? && Enabled(s, step)
    ensures Work(Apply(s, step)) + 1 <= Work(s) + Allowance(step)
  {
    match step
    case Connect => ConnectWorks(s);
    case Send(_, _) => ArrivalWorks(s, step);
    case HangUp(_) => ArrivalWorks(s, step);
    case Break(_) => ArrivalWorks(s, step);
    case AcceptFails => SetbackWorks(s, step);
    case Poll(batch, stale) =>
      if batch == [] {
        SetbackWorks(s, step);
      } else {
        PollWorks(s, batch, stale);
      }
    case _ => LoopWorks(s, step);
  }

  lemma {:induction false} FreeFd(fds: set<int>) returns (fd: int)
    ensures fd > 0 && forall x | x in fds :: x < fd
    decreases |fds|
  {
    if x :| x in fds {
      var less := FreeFd(fds - {x});
      fd := if x < less then less else x + 1;
      assert forall y | y in fds :: y == x || y in fds - {x};
    } else {
      fd := 1;
    }
  }

  /** The loop can get on. */
  ghost predicate CanGetOn(s: State) {
    exists step :: Productive(step) && Enabled(s, step)
  }

  /** When blocked, only an empty batch can be reported. */
  lemma NothingReportable(s: State, batch: seq<Event>)
    requires Blocked(s) && batch != []
    ensures !Reportable(s, batch)
  {
    var first := batch[0];
  }

  lemma WaitingGetsOn(s: State)
    requires Inv(s) && s.pc.Next?
    ensures CanGetOn(s) <==> !Blocked(s)
  {
    if s.rest != [] && s.rest[0].Listen? {
      var fd := FreeFd(s.files.Keys);
      assert Enabled(s, Accept(fd));
    } else if s.rest != [] {
      assert Enabled(s, Begin);
    } else if s.backlog != [] {
      assert Reportable(s, [Listen]);
      assert Enabled(s, Poll([Listen], {}));
    } else if fd :| fd in s.ready && Known(s, fd) && Readable(At(s, fd)) {
      var batch := [Client(fd, s.files[fd])];
      assert Reportable(s, batch);
      assert Enabled(s, Poll(batch, {}));
    } else {
      forall step | Productive(step)
        ensures !Enabled(s, step)
      {
        if step.Poll? {
          NothingReportable(s, step.batch);
        }
      }
    }
  }

  lemma GetsOn(s: State)
    requires Inv(s) && !s.pc.Exited?
    ensures CanGetOn(s) <==> !Blocked(s)
  {
    match s.pc
    case Next => WaitingGetsOn(s);
    case Adding(fd) => assert Enabled(s, Add);
    case Draining(fd) => SomeRead(s);
    case Got(fd, n) => assert Enabled(s, Test);
    case Writing(fd, n) => assert Enabled(s, Write);
    case Deleting(fd, cause) => assert Enabled(s, Delete);
    case Closing(fd, cause) => assert Enabled(s, Close);
    case Exited =>
  }

  function Paid(steps: seq<Step>): (pay: seq<nat>)
    ensures |pay| == |steps| && forall i | 0 <= i < |pay| :: pay[i] == Allowance(steps[i])
  {
    seq(|steps|, i requires 0 <= i < |steps| => Allowance(steps[i]))
  }

  function WorkOf(run: seq<State>): (work: seq<nat>)
    ensures |work| == |run| && forall i | 0 <= i < |work| :: work[i] == Work(run[i])
  {
    seq(|run|, i requires 0 <= i < |run| => Work(run[i]))
  }

  lemma StepPays(run: seq<State>, steps: seq<Step>, i: nat)
    requires IsRun(run, steps) && i < |steps|
    ensures Work(run[i + 1]) + 1 <= Work(run[i]) + Allowance(steps[i])
  {
    Invariant(run, steps, i);
    assert Moves(run[i], steps[i], run[i + 1]);
    WorkPays(run[i], steps[i]);
  }

  lemma WorkBounds(run: seq<State>, steps: seq<Step>, from: nat)
    requires IsRun(run, steps) && from < |run|
    ensures |steps| - from <= Work(run[from]) + Sum(Paid(steps[from..]))
  {
    var work, pay := WorkOf(run[from..]), Paid(steps[from..]);
    forall i | 0 <= i < |pay|
      ensures work[i + 1] + 1 <= work[i] + pay[i]
    {
      StepPays(run, steps, from + i);
    }
    Amortised(work, pay);
  }

  /** In every run, however the kernel cuts batches and reads, the steps made are bounded by the
      work there was and what the clients, failing accepts and wake-ups for nothing have added:
      once the clients are quiet and `accept` succeeds, the loop comes to rest. And it rests only
      when every open client has got back all it sent and every client that hung up is closed. */
  lemma Settles(run: seq<State>, steps: seq<Step>, from: nat)
    requires IsRun(run, steps) && from < |run|
    ensures |steps| - from <= Work(run[from]) + Sum(Paid(steps[from..]))
    ensures var s := run[|steps|];
            !s.pc.Exited? && !CanGetOn(s) ==>
              forall c | 0 <= c < |s.conns| && s.conns[c].stage.Open? ::
                !s.conns[c].hungUp && !s.conns[c].broken && s.conns[c].echoed == s.conns[c].sent
  {
    var s := run[|steps|];
    WorkBounds(run, steps, from);
    Invariant(run, steps, |steps|);
    if !s.pc.Exited? && !CanGetOn(s) {
      GetsOn(s);
      forall c | 0 <= c < |s.conns| && s.conns[c].stage.Open?
        ensures !s.conns[c].hungUp && !s.conns[c].broken && s.conns[c].echoed == s.conns[c].sent
      {
        BlockedMeansServed(run, steps, |steps|, c);
      }
    }
  }

  // ----- What is echoed -----

  /** To each client the server has written, in order, the bytes it read from it: all of them
      but for the chunk in its hands while the client is open, and at the close all of them but
      for the chunk on which the test fired. A client that closed first has got back all it sent. */
  lemma EchoesConsumed(run: seq<State>, steps: seq<Step>, i: nat, c: nat)
    requires IsRun(run, steps) && i < |run| && !run[i].pc.Exited? && c < |run[i].conns|
    ensures var s := run[i]; var conn := s.conns[c];
            && conn.sent == conn.consumed + conn.unread
            && match conn.stage
               case Queued => conn.echoed == conn.consumed == ""
               case Open(fd) => conn.consumed == conn.echoed + InFlight(s.pc, fd, s.buffer) && (s.pc.Next? ==> conn.consumed == conn.echoed)
               case Closed(Eof) => conn.hungUp && conn.echoed == conn.sent
               case Closed(Dots(chunk)) => conn.consumed == conn.echoed + chunk
               case Closed(Failed) => conn.broken && conn.consumed == conn.echoed
  {
    Invariant(run, steps, i);
    assert SoundAt(run[i], c);
  }

  // ----- The test for "..." -----

  /** The buffer is what the recorded reads made of it. */
  ghost predicate BufferIs(initial: string, s: State) {
    && |initial| == MAX_LINE && AreChunks(s.chunks)
    && s.buffer == AfterReads(initial, s.chunks)
    && (s.pc.Got? ==> s.chunks != [] && s.pc.n <= MAX_LINE && s.buffer[..s.pc.n] == s.chunks[|s.chunks| - 1])
  }

  lemma ReadRecorded(initial: string, s: State, n: nat)
    requires BufferIs(initial, s) && Enabled(s, Read(n))
    ensures BufferIs(initial, Apply(s, Read(n)))
  {
    var t := Apply(s, Read(n));
    var chunk := At(s, s.pc.fd).unread[..n];
    assert t.chunks == s.chunks + [chunk] && t.chunks[..|t.chunks| - 1] == s.chunks;
    assert IsChunk(chunk) && t.buffer[..n] == chunk;
  }

  lemma NothingRead(buffer: string)
    requires |buffer| == MAX_LINE
    ensures AreChunks([]) && AfterReads(buffer, []) == buffer
  {
  }

  lemma {:induction false} BufferHistory(run: seq<State>, steps: seq<Step>, i: nat)
    requires IsRun(run, steps) && i < |run|
    ensures BufferIs(run[0].buffer, run[i])
  {
    hide AfterReads, AreChunks, Reportable, Overlay;
    if i == 0 {
      NothingRead(run[0].buffer);
    } else {
      BufferHistory(run, steps, i - 1);
      assert Moves(run[i - 1], steps[i - 1], run[i]);
      if steps[i - 1].Read? {
        ReadRecorded(run[0].buffer, run[i - 1], steps[i - 1].n);
      }
    }
  }

  /** The server closes a client on the test exactly when the last chunks to reach the first
      three positions of the buffer, from whichever clients, had dots there. */
  lemma ClosesOnDotsExactly(run: seq<State>, steps: seq<Step>, i: nat)
    requires IsRun(run, steps) && i < |steps| && steps[i] == Test
    ensures |run[0].buffer| == MAX_LINE
    ensures run[i + 1].pc.Deleting? <==> forall p | 0 <= p < 3 :: LastAt(run[0].buffer, run[i].chunks, p) == '.'
    ensures run[i].chunks != []
    ensures run[i + 1].pc.Deleting? ==> run[i + 1].pc.cause == Dots(run[i].chunks[|run[i].chunks| - 1])
  {
    assert Moves(run[i], steps[i], run[i + 1]);
    BufferHistory(run, steps, i);
    FiresExactly(run[0].buffer, run[i].chunks);
  }

  /** The chunk is shorter than three bytes, all dots, and completed to three by bytes that
      earlier reads left behind. */
  predicate CompletedByStale(stale: string, chunk: string)
    requires |stale| >= 3
  {
    |chunk| < 3 && (forall p | 0 <= p < |chunk| :: chunk[p] == '.') && (forall p | |chunk| <= p < 3 :: stale[p] == '.')
  }

  /** The test says whether the chunk itself begins with "..." except in just that case. */
  lemma TestIsRightExactly(stale: string, chunk: string)
    requires |stale| == MAX_LINE && IsChunk(chunk)
    ensures (StartsWithDots(Overlay(stale, chunk)) <==> "..." <= chunk) <==> !CompletedByStale(stale, chunk)
  {
    var after := Overlay(stale, chunk);
    DotsAre(after);
    assert forall p | 0 <= p < 3 :: after[p] == if p < |chunk| then chunk[p] else stale[p];
    if |chunk| >= 3 {
      DotsAre(chunk);
      assert "..." <= chunk <==> StartsWithDots(chunk);
    }
  }

  // ----- A client closed over another client's bytes -----

  const FRESH_BUFFER := "##########"

  function Connected(a: Conn, b: Conn, ready: set<int>, rest: seq<Event>, pc: Pc, buffer: string, chunks: seq<string>): State {
    State([a, b], [], map[5 := 0, 6 := 1], {5, 6}, ready, rest, pc, buffer, chunks)
  }

  lemma Extends(run: seq<State>, steps: seq<Step>, step: Step, t: State) returns (longer: seq<State>, more: seq<Step>)
    requires IsRun(run, steps) && Moves(run[|steps|], step, t)
    ensures IsRun(longer, more) && longer[|more|] == t
  {
    longer, more := run + [t], steps + [step];
  }

  /** Two clients connect, on descriptors 5 and 6. */
  lemma OneAccepted() returns (run: seq<State>, steps: seq<Step>)
    ensures IsRun(run, steps)
    ensures run[|steps|] == State([NewConn.(stage := Open(5)), NewConn], [1], map[5 := 0], {5}, {}, [], Next, FRESH_BUFFER, [])
  {
    var c := NewConn;
    var s := State([], [], map[], {}, {}, [], Next, FRESH_BUFFER, []);
    run, steps := [s], [];
    run, steps := Extends(run, steps, Connect, s.(conns := [c], backlog := [0]));
    run, steps := Extends(run, steps, Connect, s.(conns := [c, c], backlog := [0, 1]));
    run, steps := Extends(run, steps, Poll([Listen], {}), s.(conns := [c, c], backlog := [0, 1], rest := [Listen]));
    s := s.(conns := [c.(stage := Open(5)), c], backlog := [1], files := map[5 := 0]);
    run, steps := Extends(run, steps, Accept(5), s.(pc := Adding(5)));
    run, steps := Extends(run, steps, Add, s.(watched := {5}));
  }

  lemma TwoConnect() returns (run: seq<State>, steps: seq<Step>)
    ensures IsRun(run, steps)
    ensures run[|steps|] == Connected(NewConn.(stage := Open(5)), NewConn.(stage := Open(6)), {}, [], Next, FRESH_BUFFER, [])
  {
    run, steps := OneAccepted();
    var c := NewConn;
    var s := State([c.(stage := Open(5)), c], [1], map[5 := 0], {5}, {}, [], Next, FRESH_BUFFER, []);
    run, steps := Extends(run, steps, Poll([Listen], {}), s.(rest := [Listen]));
    s := s.(conns := [c.(stage := Open(5)), c.(stage := Open(6))], backlog := [], files := map[5 := 0, 6 := 1]);
    run, steps := Extends(run, steps, Accept(6), s.(pc := Adding(6)));
    run, steps := Extends(run, steps, Add, s.(watched := {5, 6}));
  }

  /** The first sends "a..", the second "."; both are in one batch. */
  lemma BothSend() returns (run: seq<State>, steps: seq<Step>)
    ensures IsRun(run, steps)
    ensures run[|steps|] == Connected(Conn("a..", "a..", false, false, "", "", Open(5)), Conn(".", ".", false, false, "", "", Open(6)),
                                      {}, [Client(5, 0), Client(6, 1)], Next, FRESH_BUFFER, [])
  {
    run, steps := TwoConnect();
    var a, b := NewConn.(stage := Open(5)), NewConn.(stage := Open(6));
    assert "" + "a.." == "a.." && "" + "." == ".";
    a := a.(sent := "a..", unread := "a..");
    run, steps := Extends(run, steps, Send(0, "a.."), Connected(a, b, {5}, [], Next, FRESH_BUFFER, []));
    b := b.(sent := ".", unread := ".");
    run, steps := Extends(run, steps, Send(1, "."), Connected(a, b, {5, 6}, [], Next, FRESH_BUFFER, []));
    var batch := [Client(5, 0), Client(6, 1)];
    assert Fds(batch) == {5, 6} by {
      assert batch[0] == Client(5, 0) && batch[1] == Client(6, 1);
    }
    run, steps := Extends(run, steps, Poll(batch, {}), Connected(a, b, {}, batch, Next, FRESH_BUFFER, []));
  }

  lemma BufferValues()
    ensures "a.."[..3] == "a.." && "a.."[3..] == "" && "."[..1] == "." && "."[1..] == "" && "" + "a.." == "a.." && "" + "." == "."
    ensures Overlay(FRESH_BUFFER, "a..") == "a..#######" && Overlay("a..#######", ".") == "...#######"
    ensures "a..#######"[..3] == "a.." && "...#######"[..1] == "."
    ensures !StartsWithDots("a..#######") && StartsWithDots("...#######")
  {
    assert "a..#######"[..3][0] == 'a' && "..."[0] == '.';
  }

  lemma ReadsFirst(a: Conn, b: Conn, rest: seq<Event>)
    requires a == Conn("a..", "a..", false, false, "", "", Open(5))
    ensures Moves(Connected(a, b, {}, rest, Draining(5), FRESH_BUFFER, []), Read(3),
                  Connected(a.(unread := "", consumed := "a.."), b, {}, rest, Got(5, 3), "a..#######", ["a.."]))
  {
    BufferValues();
  }

  /** The first is read and passes the test. */
  lemma FirstRead() returns (run: seq<State>, steps: seq<Step>)
    ensures IsRun(run, steps)
    ensures run[|steps|] == Connected(Conn("a..", "", false, false, "a..", "", Open(5)), Conn(".", ".", false, false, "", "", Open(6)),
                                      {}, [Client(6, 1)], Writing(5, 3), "a..#######", ["a.."])
  {
    run, steps := BothSend();
    var a, b := Conn("a..", "a..", false, false, "", "", Open(5)), Conn(".", ".", false, false, "", "", Open(6));
    var rest := [Client(6, 1)];
    run, steps := Extends(run, steps, Begin, Connected(a, b, {}, rest, Draining(5), FRESH_BUFFER, []));
    ReadsFirst(a, b, rest);
    a := a.(unread := "", consumed := "a..");
    run, steps := Extends(run, steps, Read(3), Connected(a, b, {}, rest, Got(5, 3), "a..#######", ["a.."]));
    assert !StartsWithDots("a..#######") by { BufferValues(); }
    run, steps := Extends(run, steps, Test, Connected(a, b, {}, rest, Writing(5, 3), "a..#######", ["a.."]));
  }

  lemma EchoesFirst(a: Conn, b: Conn, rest: seq<Event>)
    requires a == Conn("a..", "", false, false, "a..", "", Open(5))
    ensures Moves(Connected(a, b, {}, rest, Writing(5, 3), "a..#######", ["a.."]), Write,
                  Connected(a.(echoed := "a.."), b, {}, rest, Draining(5), "a..#######", ["a.."]))
  {
    BufferValues();
  }

  /** It is echoed, and its three bytes stay in the buffer. */
  lemma FirstServed() returns (run: seq<State>, steps: seq<Step>)
    ensures IsRun(run, steps)
    ensures run[|steps|] == Connected(Conn("a..", "", false, false, "a..", "a..", Open(5)), Conn(".", ".", false, false, "", "", Open(6)),
                                      {}, [Client(6, 1)], Next, "a..#######", ["a.."])
  {
    run, steps := FirstRead();
    var a, b := Conn("a..", "", false, false, "a..", "", Open(5)), Conn(".", ".", false, false, "", "", Open(6));
    var rest := [Client(6, 1)];
    EchoesFirst(a, b, rest);
    a := a.(echoed := "a..");
    run, steps := Extends(run, steps, Write, Connected(a, b, {}, rest, Draining(5), "a..#######", ["a.."]));
    run, steps := Extends(run, steps, ReadNothing, Connected(a, b, {}, rest, Next, "a..#######", ["a.."]));
  }

  lemma ReadsSecond(a: Conn, b: Conn)
    requires b == Conn(".", ".", false, false, "", "", Open(6))
    ensures Moves(Connected(a, b, {}, [], Draining(6), "a..#######", ["a.."]), Read(1),
                  Connected(a, b.(unread := "", consumed := "."), {}, [], Got(6, 1), "...#######", ["a..", "."]))
  {
    BufferValues();
  }

  /** So the second, which has sent a single dot, is closed on it, without an echo. */
  lemma StaleDotsClose() returns (run: seq<State>, steps: seq<Step>)
    ensures IsRun(run, steps)
    ensures var s := run[|steps|];
            s.pc == Deleting(6, Dots(".")) && Known(s, 6) && At(s, 6).sent == "." && At(s, 6).echoed == ""
  {
    run, steps := FirstServed();
    var a, b := Conn("a..", "", false, false, "a..", "a..", Open(5)), Conn(".", ".", false, false, "", "", Open(6));
    run, steps := Extends(run, steps, Begin, Connected(a, b, {}, [], Draining(6), "a..#######", ["a.."]));
    ReadsSecond(a, b);
    b := b.(unread := "", consumed := ".");
    run, steps := Extends(run, steps, Read(1), Connected(a, b, {}, [], Got(6, 1), "...#######", ["a..", "."]));
    assert StartsWithDots("...#######") && "...#######"[..1] == "." by { BufferValues(); }
    run, steps := Extends(run, steps, Test, Connected(a, b, {}, [], Deleting(6, Dots(".")), "...#######", ["a..", "."]));
  }

  // ----- The read loop as it stands -----

  datatype ReadResult = Data(bytes: string) | Again | End | Error

  /** What successive reads on one descriptor return: chunks, then something else. */
  ghost predicate IsScript(script: seq<ReadResult>) {
    && script != [] && !script[|script| - 1].Data?
    && forall k | 0 <= k < |script| - 1 :: script[k].Data? && IsChunk(script[k].bytes)
  }

  function Bytes(script: seq<ReadResult>): (chunks: seq<string>)
    requires forall k | 0 <= k < |script| :: script[k].Data?
    ensures |chunks| == |script| && forall k | 0 <= k < |chunks| :: chunks[k] == script[k].bytes
  {
    if script == [] then [] else Bytes(script[..|script| - 1]) + [script[|script| - 1].bytes]
  }

  function Concat(chunks: seq<string>): string {
    if chunks == [] then "" else Concat(chunks[..|chunks| - 1]) + chunks[|chunks| - 1]
  }

  /** The test fires on the k-th of the chunks read into this buffer. */
  ghost predicate Fires(buffer: string, chunks: seq<string>, k: nat)
    requires |buffer| == MAX_LINE && AreChunks(chunks) && k < |chunks|
  {
    assert AreChunks(chunks[..k + 1]);
    StartsWithDots(AfterReads(buffer, chunks[..k + 1]))
  }

  /** What the loop has done after `used` chunks on which the test did not fire. */
  ghost predicate SoFar(initial: string, chunks: seq<string>, used: nat, echoed: string, buffer: string)
    requires |initial| == MAX_LINE && AreChunks(chunks)
  {
    && used <= |chunks| && AreChunks(chunks[..used])
    && buffer == AfterReads(initial, chunks[..used])
    && echoed == Concat(chunks[..used])
    && forall k | 0 <= k < used :: !Fires(initial, chunks, k)
  }

  /** One more chunk: the test fires on it, or it is echoed too. */
  lemma OneMore(initial: string, chunks: seq<string>, used: nat, echoed: string, buffer: string)
    requires |initial| == MAX_LINE && AreChunks(chunks) && used < |chunks| && SoFar(initial, chunks, used, echoed, buffer)
    ensures |chunks[used]| <= |buffer| && |buffer| == MAX_LINE && AreChunks(chunks[..used + 1])
    ensures var after := Overlay(buffer, chunks[used]);
            && after == AfterReads(initial, chunks[..used + 1])
            && if StartsWithDots(after) then Fires(initial, chunks, used)
               else SoFar(initial, chunks, used + 1, echoed + chunks[used], after)
  {
    assert IsChunk(chunks[used]);
    assert chunks[..used + 1][..used] == chunks[..used];
  }

  lemma ScriptChunks(script: seq<ReadResult>)
    requires IsScript(script)
    ensures var chunks := Bytes(script[..|script| - 1]);
            AreChunks(chunks) && forall k | 0 <= k < |chunks| :: chunks[k] == script[k].bytes
  {
    var chunks := Bytes(script[..|script| - 1]);
    forall k | 0 <= k < |chunks|
      ensures IsChunk(chunks[k]) && chunks[k] == script[k].bytes
    {
      assert script[k].Data? && IsChunk(script[k].bytes);
    }
  }

  method ReadInto(buffer: array<char>, bytes: string)
    requires |bytes| <= buffer.Length
    modifies buffer
    ensures buffer[..] == Overlay(old(buffer[..]), bytes)
    ensures buffer[..|bytes|] == bytes
  {
    forall k | 0 <= k < |bytes| {
      buffer[k] := bytes[k];
    }
  }

  /** Lines 85 to 106: echoes every chunk before the first on which the test fires; the client
      is to be closed if it fired, or if the reads ended otherwise than with EAGAIN. */
  method Drain(buffer: array<char>, script: seq<ReadResult>) returns (done: bool, echoed: string, used: nat)
    requires buffer.Length == MAX_LINE && IsScript(script)
    modifies buffer
    ensures used < |script|
    ensures var chunks := Bytes(script[..|script| - 1]);
            && AreChunks(chunks)
            && echoed == Concat(chunks[..used])
            && (forall k | 0 <= k < used :: !Fires(old(buffer[..]), chunks, k))
            && (used < |chunks| ==> done && Fires(old(buffer[..]), chunks, used))
            && (used == |chunks| ==> (done <==> !script[used].Again?))
            && buffer[..] == AfterReads(old(buffer[..]), if used < |chunks| then chunks[..used + 1] else chunks)
  {
    done, echoed, used := false, "", 0;
    ghost var chunks := Bytes(script[..|script| - 1]);
    ghost var initial := buffer[..];
    ScriptChunks(script);
    assert chunks[..0] == [] && chunks[..|chunks|] == chunks;
    while script[used].Data?
      invariant used < |script| && !done
      invariant SoFar(initial, chunks, used, echoed, buffer[..])
      decreases |script| - used
    {
      OneMore(initial, chunks, used, echoed, buffer[..]);
      ReadInto(buffer, script[used].bytes);
      assert buffer[..][..3] == buffer[..3];
      if buffer[..3] == "..." {
        done := true;
        return;
      }
      echoed := echoed + buffer[..|script[used].bytes|];
      used := used + 1;
    }
    done := !script[used].Again?;
  }

  // ----- The event loop as the code drives it -----

  /** One turn of the read loop that neither closes nor ends it, for a client with n bytes to read. */
  lemma Turn(s: State, n: nat)
    requires Inv(s) && s.pc.Draining? && Known(s, s.pc.fd) && 1 <= n <= MAX_LINE && n <= |At(s, s.pc.fd).unread|
    ensures Enabled(s, Read(n))
    ensures var read := Apply(s, Read(n));
            && Inv(read) && Enabled(read, Test)
            && var tested := Apply(read, Test);
               && Inv(tested) && tested.files == s.files && tested.rest == s.rest
               && (tested.pc.Deleting? || tested.pc == Writing(s.pc.fd, n)) && tested.pc.fd == s.pc.fd
               && (tested.pc.Writing? ==>
                     && Enabled(tested, Write)
                     && var written := Apply(tested, Write);
                        && written.pc == s.pc && written.files == s.files && written.rest == s.rest && Known(written, s.pc.fd)
                        && |At(written, s.pc.fd).unread| == |At(s, s.pc.fd).unread| - n)
  {
    Keeps(s, Read(n));
    Keeps(Apply(s, Read(n)), Test);
  }

  /** The state of the program and the kernel and, as history, the run that led there. */
  class EventLoop {
    var state: State
    ghost var run: seq<State>
    ghost var steps: seq<Step>

    ghost predicate Valid()
      reads this
    {
      IsRun(run, steps) && run[|steps|] == state && !state.pc.Exited?
    }

    constructor (buffer: string)
      requires |buffer| == MAX_LINE
      ensures Valid() && Init(state)
    {
      var s := State([], [], map[], {}, {}, [], Next, buffer, []);
      state, run, steps := s, [s], [];
    }

    method Advance(step: Step)
      requires Valid() && Enabled(state, step) && !step.AddFails? && !step.WriteFails?
      modifies this
      ensures Valid() && Inv(state) && state == Apply(old(state), step)
      ensures run == old(run) + [state] && steps == old(steps) + [step]
    {
      Invariant(run, steps, |steps|);
      Keeps(state, step);
      state := Apply(state, step);
      run, steps := run + [state], steps + [step];
    }

    /** What the clients do before the next system call. */
    method Elapse(arrivals: seq<Step>)
      requires Valid() && Inv(state)
      modifies this
      ensures Valid() && Inv(state) && old(run) <= run
      ensures state.pc == old(state.pc) && state.rest == old(state.rest) && state.files == old(state.files)
    {
      for i := 0 to |arrivals|
        invariant Valid() && Inv(state) && old(run) <= run
        invariant state.pc == old(state.pc) && state.rest == old(state.rest) && state.files == old(state.files)
      {
        if !ServerStep(arrivals[i]) && Enabled(state, arrivals[i]) {
          Advance(arrivals[i]);
        }
      }
    }

    /** One read that returns bytes: the test and the echo. */
    method ReadTurn(fd: int, size: nat) returns (more: bool)
      requires Valid() && Inv(state) && state.pc == Draining(fd) && Known(state, fd) && At(state, fd).unread != ""
      modifies this
      ensures Valid() && Inv(state) && old(run) <= run && state.rest == old(state.rest)
      ensures if more then state.pc == Draining(fd) && Known(state, fd) && |At(state, fd).unread| < |old(At(state, fd).unread)|
              else state.pc.Deleting? && state.pc.fd == fd
    {
      hide Inv, IsRun;
      var most := if |At(state, fd).unread| < MAX_LINE then |At(state, fd).unread| else MAX_LINE;
      var n := if 1 <= size <= most then size else most;
      Turn(state, n);
      Advance(Read(n));
      Advance(Test);
      more := state.pc.Writing?;
      if more {
        Advance(Write);
      }
    }

    /** The read that returns no bytes, if the test has not fired. */
    method LastRead(fd: int)
      requires Valid() && Inv(state) && state.pc == Draining(fd) && Known(state, fd) && At(state, fd).unread == ""
      modifies this
      ensures Valid() && Inv(state) && old(run) <= run && state.rest == old(state.rest)
      ensures (state.pc.Deleting? && state.pc.fd == fd) || (state.pc.Next? && Known(state, fd) && !Readable(At(state, fd)))
    {
      if At(state, fd).broken {
        Advance(ReadFails);
      } else {
        Advance(ReadNothing);
      }
    }

    method Hangup(fd: int)
      requires Valid() && Inv(state) && state.pc.Deleting? && state.pc.fd == fd
      modifies this
      ensures Valid() && Inv(state) && old(run) <= run && state.rest == old(state.rest)
      ensures state.pc.Next? && fd !in state.files
    {
      Advance(Delete);
      Advance(Close);
    }

    /** Lines 85 to 111 for one event: whatever arrives meanwhile, the loop ends and leaves the
        descriptor drained or closed. `sizes(k)` decides how much the k-th read returns. */
    method Serve(arrivals: seq<seq<Step>>, sizes: nat -> nat)
      requires Valid() && Inv(state) && state.pc.Draining?
      modifies this
      ensures Valid() && Inv(state) && old(run) <= run
      ensures state.pc.Next? && state.rest == old(state.rest)
      ensures var fd := old(state.pc.fd); fd in state.files ==> Known(state, fd) && !Readable(At(state, fd))
    {
      var fd, k, more := state.pc.fd, 0, true;
      while more
        invariant Valid() && Inv(state) && old(run) <= run && state.rest == old(state.rest)
        invariant if more then state.pc == Draining(fd) && Known(state, fd)
                  else (state.pc.Deleting? && state.pc.fd == fd) || (state.pc.Next? && Known(state, fd) && !Readable(At(state, fd)))
        decreases if more then 1 else 0, if k < |arrivals| then |arrivals| - k else 0, if more then |At(state, fd).unread| else 0
      {
        if k < |arrivals| {
          Elapse(arrivals[k]);
        }
        if At(state, fd).unread == "" {
          LastRead(fd);
          more := false;
        } else {
          more := ReadTurn(fd, sizes(k));
        }
        k := k + 1;
      }
      if state.pc.Deleting? {
        Hangup(fd);
      }
    }

    /** Lines 72 to 83 for the listening socket: `accept` fails, or takes the oldest waiting
        connection to the free descriptor fd. */
    method Welcome(fd: int, failing: bool)
      requires Valid() && Inv(state) && state.pc.Next? && state.rest != [] && state.rest[0].Listen?
      requires fd > 0 && fd !in state.files
      modifies this
      ensures Valid() && Inv(state) && old(run) <= run
      ensures state.pc.Next? && state.rest == old(state.rest)[1..] && old(state.backlog) != []
      ensures if failing then state.files == old(state.files) && state.watched == old(state.watched) && state.backlog == old(state.backlog)
              else
                && state.files == old(state.files)[fd := old(state.backlog)[0]] && state.watched == old(state.watched) + {fd}
                && state.backlog == old(state.backlog)[1..]
    {
      Invariant(run, steps, |steps|);
      if failing {
        Advance(AcceptFails);
      } else {
        Advance(Accept(fd));
        Advance(Add);
      }
    }

    /** The `for` loop over a batch, with any free descriptor for each `accept`, which may fail:
        it ends with every event handled, every open client watched, and each that has something
        to read on the ready list for the next `epoll_wait`. */
    method HandleBatch(arrivals: nat -> seq<seq<Step>>, sizes: nat -> nat, failing: bool)
      requires Valid() && Inv(state) && state.pc.Next?
      modifies this
      ensures Valid() && Inv(state) && old(run) <= run
      ensures state.pc.Next? && state.rest == []
      ensures forall fd | fd in state.files :: fd in state.watched && Known(state, fd) && (Readable(At(state, fd)) ==> fd in state.ready)
    {
      while state.rest != []
        invariant Valid() && Inv(state) && old(run) <= run && state.pc.Next?
        decreases |state.rest|
      {
        if state.rest[0].Listen? {
          ghost var free := FreeFd(state.files.Keys);
          assert free !in state.files;
          var fd: int :| fd > 0 && fd !in state.files;
          Welcome(fd, failing);
        } else {
          Advance(Begin);
          Serve(arrivals(|state.rest|), sizes);
        }
      }
    }
  }
}
