# Verification models of the system-programming repository

Most programs of this repository are straight lines of system calls. A few hold protocols and
state machines. This project models those in Dafny and proves what they are for:

- **The mini-shell** (`lab/`), in seven modules. `Tokenizer` is the `strtok` tokenizer over the
  line buffer. `CommandLine` is the parser of its lines, with a printer, and `Grammar` says
  without any scanning what a line consists of and what that means. `Evaluator` says,
  without descriptors or pointers, which `execute` and `waitpid` calls a line makes, for every
  pattern of failing system calls. `Shell` is the code: the token array with its in-place NULLs,
  the two-pointer walk, and the descriptor table; it is proved to make exactly the evaluator's
  calls and to leave the table as it was, but for the descriptors that are counted, and its
  children are the processes these calls start. `Reaping` is the race of the line's `waitpid`
  calls with the SIGCHLD handler, and `LineReaping` ties its lines to the evaluator's.
- **The semaphore hand-off** (`ch07/exercise-3.c`, `ch07/exercise-4.c`), in `Handoff`, for any
  number of messages and any size of the shared memory, written and read a character at a time.
- **The bounded queue server** (`ch09/msg_server.c`), in `LogServer`, for any queue size: the
  queue as a class that refines a sequence, and the two threads statement by statement.
- **The edge-triggered echo server** (`ch09/chattingProgram/ex06.c`), in `EchoServer`: the event
  loop, the kernel's ready list and the clients, with reuse of descriptors.
- **The counters under a mutex** (`ch08/ex05.c`, `ch08/exercise.c`), in `Counter`, for any number
  of threads and iterations, and cancellation.

The concurrent programs are state machines whose runs are all interleavings of single
statements; each has an inductive invariant and its properties are stated for every state of
every run. The kernel is data (descriptor tables, child table, semaphores, ready list), and
whatever it may decide (a failing call, an id, a status, a schedule, a batch of events, the
length of a read) is an argument over which the theorems quantify.

What the proofs found about the code:

- A line leaks descriptors in some environment exactly when it can reach a segment without a
  command word that holds a redirection or a pipe end, as in `a |` or `> f`, because `execute`
  then returns before it closes anything (`Evaluator.LeakFreeExactly`).
- `&&` decides rightly for the last stage's own status exactly when `waitpid` collected it or the
  status left in the variable agrees; if the SIGCHLD handler was faster, that is the status of an
  earlier stage or the uninitialised one. A run in which a failed command lets the next segment
  start is constructed (`Reaping.AndIsRightExactly`, `Reaping.HandlerCanWin`).
- A child killed by a signal, a builtin, an empty segment and a failed `fork` count as success
  for `&&` (`Evaluator.AndGoesOnExactly`); a builtin that is piped on ends the line
  (`Evaluator.PipeGoesOnExactly`); a builtin in front of a line takes the whole line, operators
  included, as its arguments (`Shell.Shell.ProcessLine`).
- The word behind a redirection is its file whatever it is: `> |` opens a file named `|`. Words
  behind a redirection's file are dropped, and a `&` glued to a file name, as in `cat > f&`,
  stays part of the name: only the spaced `&`, or one glued to a last token that is not a file,
  puts the line in the background (`Grammar.ParseCharacterised`).
- In the foreground every process of a line is waited for exactly once; with a `&` at its end
  those in front of the last `&&` are, and no other (`Evaluator.WaitsExactly`).
- The echo server's test for `...` looks at three bytes however few were read. It says whether
  the chunk begins with `...` exactly unless the chunk is shorter than three bytes, all dots, and
  completed by dots that earlier reads, of any client, left in the buffer; a run closes a client
  that has sent a single dot (`EchoServer.TestIsRightExactly`, `EchoServer.StaleDotsClose`).
- The shared memory of 30 bytes is large enough for the hand-off's messages exactly when there
  are fewer than ten billion of them (`Handoff.ThirtyBytes`).

## Model

| member | source | states |
|---|---|---|
| Tokenizer.TokensOfJoin | lab/parsing.c:17-27 | words laid out with any non-empty runs of blanks between them, and any blanks around, are parsed back to the same words |
| Tokenizer.TokensCover | lab/parsing.c:17-27 | every line is such a layout of its own tokens: nothing but blanks is lost |
| Tokenizer.TokensCharacterised | lab/parsing.c:17-27 | the tokens of a line are `words` if and only if the line is a layout of `words`; so they are its maximal delimiter-free runs |
| Tokenizer.TokenBound | lab/main.c:10-38 | a line of n characters has at most (n + 1) / 2 tokens, hence at most 127 for the line buffer |
| Tokenizer.Strtok.Next | lab/parsing.c:17-24 | one `strtok` call returns the first token still due, or none, although it overwrites the line it reads; all later calls return the others |
| Tokenizer.Collect | lab/parsing.c:20-30 | the growing array stays in bounds and ends as all tokens followed by NULL |
| Tokenizer.CommandParse | lab/parsing.c:8-31 | NULL exactly for a missing or blank line, else a new array of exactly the line's tokens and one NULL |
| Tokenizer.CommandFreeList | lab/parsing.c:34-39 | frees, in order, exactly the strings in front of the first NULL, in bounds |
| CommandLine.RoundTrip | lab/isexecutable.c:136-268 | parsing inverts printing on every canonical line of pipes, redirections, `&&` and `&`, with the final `&` spaced or glued |
| CommandLine.ParsePrepends | lab/isexecutable.c:181-223 | redirections seen earlier in a segment stay in front of those that follow, and change nothing else |
| CommandLine.ParseShaped | lab/isexecutable.c:136-268 | in every parsed line a pipe or `&&` is followed by a segment, and every other ending ends the line |
| Grammar.ParsesChunks | lab/isexecutable.c:20-66 | a line written as any chunks (words, redirections with words behind their files, and a closing operator; `&` with anything behind it; a final redirection sign without a file) is parsed to what these chunks mean: words behind a file are dropped, an `&` glued to the last word is the background operator, tokens other than the five operators are words |
| Grammar.Chunked | lab/isexecutable.c:136-268 | every list of tokens is such a line |
| Grammar.ParseCharacterised | lab/isexecutable.c:136-268 | a line is parsed to given segments if and only if it can be written as chunks that mean these segments |
| Evaluator.LaunchExactly | lab/isexecutable.c:68-122 | what one `execute` call comes to, whatever fails: nothing for an empty command; failure if a dup or dup2 fails, with no call after the failing dup2; else a builtin for the three names of the table; else a child if and only if the fork succeeds; with the files handed in, or the shell's own, as standard input and output |
| Evaluator.HeadExecutesExactly | lab/isexecutable.c:136-223 | a segment is executed if and only if no file name is missing and all its opens, and its pipe, succeed |
| Evaluator.PipeGoesOnExactly | lab/isexecutable.c:149-178 | the stage behind a pipe is executed if and only if the one in front is an external command, is started, and its own opens and pipe succeed; a builtin or an empty segment ends the line |
| Evaluator.WaitsExactly | lab/isexecutable.c:225-276 | in every line and whatever fails, each process is waited for exactly once and in order, except that a line executed to a final `&` waits for just those in front of its last `&&` |
| Evaluator.RedirectedIff | lab/isexecutable.c:181-223 | a segment goes on past its redirections exactly when each of their opens succeeds, one call each |
| Evaluator.UnredirectedKeeps | lab/isexecutable.c:181-223 | a direction without a redirection keeps what the pipe gave it |
| Evaluator.LastRedirectionWins | lab/isexecutable.c:181-223 | the last redirection of a direction wins over earlier ones and over the pipe |
| Evaluator.SegmentsConnect | lab/isexecutable.c:136-268 | in every line and whatever fails, the `execute` calls are those for the first segments in turn; each has as input the file of its last `<`, or else the read end of the pipe that the segment in front writes, and as output the file of its last `>`, or else the write end of a pipe of its own if it is piped on; pipes are made in turn and what is piped on was started; what ran as a builtin has a builtin's name and what was started has not |
| Evaluator.PipelineRuns | lab/isexecutable.c:149-178 | when all calls succeed, every stage of a pipeline of any length is started, in the foreground or background, with any redirections, and in the foreground all its processes are waited for |
| Evaluator.LatestIs | lab/isexecutable.c:235-242 | the last status delivered is that of the wait that delivered one and was followed by none that did, or the uninitialised one if none delivers |
| Evaluator.LatestCounts | lab/isexecutable.c:235-242 | with a process of its own, the last stage counts with the last status any wait for the pipeline delivered, or the uninitialised one; with its own if its own wait, the last, delivered it |
| Evaluator.NoProcessCounts | lab/isexecutable.c:235-242 | without one (a builtin, an empty segment, a failed call) it counts as success |
| Evaluator.AndGoesOnExactly | lab/isexecutable.c:225-255 | behind `&&` the line ends if the stage in front started a process and the last status delivered is an exit with a code above 0; it goes on if it started none, or that status is an exit with 0 or a signal, whichever it is |
| Evaluator.ProcessAt | lab/isexecutable.c:98-108 | the processes that calls have started are, in order, those of the started stages |
| Evaluator.LeaksOnlyIf | lab/isexecutable.c:68-122 | in no environment does a line leak a descriptor that does not reach an empty segment holding one |
| Evaluator.LeaksIf | lab/isexecutable.c:68-122 | every line that does reach one leaks when all calls succeed |
| Evaluator.LeakFreeExactly | lab/isexecutable.c:68-122 | a line leaks in no environment if and only if it cannot reach a segment without a command word that holds a redirection or a pipe end |
| Shell.CheckBuiltin | lab/isbuiltin.c:20-30 | the search of the table finds exactly `hostname`, `cd` and `pwd` |
| Shell.Shell.SaveStandard | lab/isexecutable.c:74-82 | the two dups, also when only one succeeds |
| Shell.Shell.RedirectStandard | lab/isexecutable.c:84-89 | the two dup2s, also when the first or the second fails: nothing above descriptor 1 changes |
| Shell.Shell.RestoreStandard | lab/isexecutable.c:110-118 | from whatever the saving and redirecting left, the table is exactly the one before |
| Shell.Shell.RunCommand | lab/isexecutable.c:74-118 | on every path descriptors 0 and 1 and all others are as before, and a child has the given files on 0 and 1 |
| Shell.Shell.Execute | lab/isexecutable.c:68-122 | one call of `execute`: its outcome is the evaluator's, the two descriptors handed in are closed on every path but that of the empty command, and all others are untouched; if the dups and dup2s succeed, a builtin runs in the shell, which returns -1 and keeps its children, and any other command becomes one new child if and only if the fork succeeds |
| Shell.Shell.ReadArgv | lab/isexecutable.c:104 | the arguments a command gets are the strings up to the first NULL behind its start |
| Shell.Shell.FindStop | lab/isexecutable.c:22-56 | the scan stays in bounds and stops at the first operator or at the NULL |
| Shell.Shell.GetOpType | lab/isexecutable.c:20-66 | finds the first operator of the rest of the line, overwrites it and nothing else with NULL, or cuts a glued `&` off the last word |
| Shell.Shell.Scan | lab/isexecutable.c:136-138 | after the NULL is written, the command's words, the operator and everything still ahead mean what the rest of the line meant before |
| Shell.Shell.RunStage | lab/isexecutable.c:141-146 | a stage hands its descriptors over or leaks them; afterwards the line's children are the processes started, this one's included, and the shell holds no write end that one of them writes to |
| Shell.Shell.WaitAll | lab/isexecutable.c:272-276 | waits for every process of the pipeline, in order |
| Shell.Shell.WaitGroup | lab/isexecutable.c:235-242 | waits for every process and computes the status that `&&` acts on, uninitialised and stale values included |
| Shell.Shell.MakePipe | lab/isexecutable.c:151-161 | the write end becomes the stage's output, or is closed at once if the output is redirected, so that the shell holds at most this one write end |
| Shell.Shell.Reopen | lab/isexecutable.c:188-219 | the file takes the place of what the direction had, which is closed; a failed open leaves the direction with nothing |
| Shell.Shell.StepPipe | lab/isexecutable.c:149-179 | the calls made and those still due together are the evaluator's for a piped segment |
| Shell.Shell.StepAnd | lab/isexecutable.c:225-255 | the same for a segment in front of `&&`, which waits for its pipeline and empties the list of ids |
| Shell.Shell.StepLast | lab/isexecutable.c:141-147 | the same for the last segment, in the foreground or the background |
| Shell.Shell.StepRedirect | lab/isexecutable.c:181-223 | the same for a redirection, whose segment goes on with the file in place |
| Shell.Shell.WalkLine | lab/isexecutable.c:136-268 | the `goto` loop ends, every access to the array is in bounds, and the ids never overflow their array |
| Shell.Shell.FinishLine | lab/isexecutable.c:270-278 | a foreground line waits for its processes and closes what the walk still carried |
| Shell.Shell.IsExecutable | lab/isexecutable.c:124-279 | the destructive walk makes exactly the calls the evaluator gives for the parsed line; every descriptor that was open is as before, the table is unchanged if and only if nothing leaks and grows by exactly the leaks; the new children are exactly the processes these calls started, with their files on 0 and 1; no write end is held twice, or by the shell beside its writer |
| Shell.Shell.ProcessLine | lab/main.c:31-52 | one turn of the main loop on any line that fits its buffer: after exit or for a blank line nothing happens; a builtin's name in front makes one call, with all tokens of the line, operators too, as its arguments, on the shell's own 0 and 1, and changes neither children nor descriptors; any other line makes the evaluator's calls; the table is kept unless the line can leak; all token strings are freed for a builtin, and else the words of the first segment, those behind the first NULL being lost |
| Shell.WaitsSettled | lab/isexecutable.c:239-275 | at every `waitpid` of a line (its contract requires it): the line's children are the processes its calls have started so far, each pipe's write end is held by one of them at most, and none that one of them writes to is held by the shell, even after a leak |
| Shell.EndsWithItsStage | lab/isexecutable.c:98-121 | then, for every started stage that writes a pipe of the line: of all children the shell ever had, that stage's alone holds the write end, and the reader sees the end if and only if that process is gone |
| Shell.StageEndsItsPipe | lab/isexecutable.c:149-178 | for every line, once `is_executable` has returned: a started stage that is piped on without a redirection writes a pipe whose read end is the next stage's input, and the pipe ends if and only if that stage's process is gone |
| Shell.RedirectedEndsAtOnce | lab/isexecutable.c:158-161 | where the output of a stage that is piped on is redirected, the pipe the next stage reads ends at once |
| Reaping.Invariant | lab/isexecutable.c:225-276 | in every interleaving of line, children and handler, each listed id still names its child or the child was collected, and the wait loops have collected all they passed |
| Reaping.NoLostZombie | lab/child_handler.c:13-33 | although SIGCHLD is not queued, with a zombie in the table the signal is pending or the handler still makes a `waitpid` that finds one, also when a child ends between the handler's last `waitpid` and its return |
| Reaping.CollectedOnce | lab/child_handler.c:17-32 | every child ever started is either in the table once and not collected, or collected exactly once, by the handler or by `waitpid` |
| Reaping.ForegroundReturns | lab/isexecutable.c:270-276 | when a foreground line returns, all children started since it left the prompt are collected, those in front of an earlier `&&` too |
| Reaping.LastDeliveredIs | lab/isexecutable.c:235-242 | the status the loop is left with is how that process of the pipeline ended which `waitpid` collected and behind which it collected none, or the uninitialised one if it collected none |
| Reaping.AndDecides | lab/isexecutable.c:235-247 | when `&&` decides, every process in front of it has terminated, and the next segment starts exactly if the status of the last process of the pipeline that `waitpid` collected, or else the uninitialised one, is an exit with 0 or a signal, or the last stage started no process |
| Reaping.AndIsRightExactly | lab/isexecutable.c:235-247 | the decision fits the last stage's own status if and only if `waitpid` collected it, or it agrees with how the last process in front of it that `waitpid` collected has ended, or with the uninitialised status if there is none |
| Reaping.HandlerCanWin | lab/isexecutable.c:235-247 | a run in which the handler collects a failed command first and the segment behind `&&` starts |
| Reaping.HandlerDrains | lab/child_handler.c:17-32 | each child the handler collects shrinks the table and nothing grows it, and it can collect one exactly while a zombie is left |
| Reaping.Kernel.WaitNoHang | lab/child_handler.c:18-24 | one call collects a zombie, or finds none and ends the loop, with 0 if children run and -1 if there are none |
| Reaping.Kernel.ChildHandler | lab/child_handler.c:13-33 | whatever terminates meanwhile, the loop ends, collects each child it takes from the table once, lets the shell go on where it was, and leaves no zombie but such as ended after its last `waitpid`, for which the signal is pending |
| LineReaping.StepIsEvaluated | lab/isexecutable.c:136-276 | every step of that machine makes the next of the calls the evaluator has due, or leaves them as they are |
| LineReaping.LineIsEvaluated | lab/isexecutable.c:136-276 | in every interleaving, the `execute` and `waitpid` calls of a line, from its start to the prompt, are exactly the evaluator's for its tokens, in a world whose `waitpid` returns what the machine's returns |
| Handoff.DecimalReads | ch07/exercise-3.c:65 | what is printed for a number is digits without a leading zero that read back, from left to right, as that number |
| Handoff.NumeralIsDecimal | ch07/exercise-3.c:65 | and the only such digits |
| Handoff.MessageExactly | ch07/exercise-3.c:65 | a string is the i-th message if and only if it is "shared memory test " and a numeral that reads back as i + 1 |
| Handoff.SenderKeeps | ch07/exercise-3.c:48-79 | every step of the sender keeps the invariant of both processes |
| Handoff.ReceiverKeeps | ch07/exercise-4.c:49-68 | every step of the receiver keeps it |
| Handoff.InOrder | ch07/exercise-4.c:49-58 | in every interleaving the strings received are messages that count 1, 2, 3 and so on, then "end": the k-th ends in a numeral that reads back as k, none is missing in between, and no two are equal |
| Handoff.AllDelivered | ch07/exercise-3.c:58-79 | every interleaving ends after the same number of steps, with both processes done and all messages, counting from 1 to the last, and "end" delivered, although no V follows "end" |
| Handoff.NeverStuck | ch07/exercise-4.c:49-68 | until both are done one of the two can move |
| Handoff.OnePermit | ch07/exercise-3.c:48-71 | until the set is removed, the two semaphores and the two processes inside add up to one |
| Handoff.NoTornRead | ch07/exercise-4.c:51-54 | what is read is always the next message, complete; the branch for an empty string, which skips the V, is never taken |
| Handoff.OrderlyRemoval | ch07/exercise-4.c:60-68 | the set goes only when "end" is written, the shared memory only when the sender has detached it, and no access is outside it |
| Handoff.ThirtyBytes | ch07/exercise-3.c:28 | all messages fit into the 30 bytes if and only if there are fewer than ten billion |
| LogServer.MessageQueue.Enqueue | ch09/msg_server.c:28-38 | accepts exactly when fewer entries than slots are queued, and then appends; else the queue is as before |
| LogServer.MessageQueue.Take | ch09/msg_server.c:50-52 | takes out the oldest entry and leaves the others in order |
| LogServer.ProducerKeeps | ch09/msg_server.c:28-38 | every statement of the producer keeps the invariant of both threads, also between moving the tail and counting |
| LogServer.ConsumerKeeps | ch09/msg_server.c:45-53 | every statement of the consumer keeps it, also between moving the head and counting |
| LogServer.Conserved | ch09/msg_server.c:23-53 | in every interleaving the accepted entries are those logged, then the one in hand, then the queue read from its head |
| LogServer.WellFormed | ch09/msg_server.c:23-53 | whenever the mutex is free, the tail is (head + count) modulo the size and the count at most the size |
| LogServer.Exclusion | ch09/msg_server.c:28-53 | the two threads are never inside the mutex together |
| LogServer.DropsExactlyWhenFull | ch09/msg_server.c:30 | an entry is dropped if and only if as many accepted entries as slots are neither logged nor in hand |
| LogServer.NoLostWakeup | ch09/msg_server.c:45-48 | the consumer sleeps only on an empty queue or with its signal still to come, spurious wake-ups allowed; an entry in the queue always leaves it, or the producer in the mutex, a step |
| LogServer.TextArrives | ch09/msg_server.c:69-85 | a datagram of a text without NUL brings exactly that text, whether a newline stands at its end or not; just one newline is removed |
| LogServer.TextEndsAtNul | ch09/msg_server.c:69-85 | with a NUL inside, it brings the text in front of it |
| LogServer.Terminate | ch09/msg_server.c:78-80 | the NULs written in place into the buffer leave just that text |
| LogServer.MessageQueue.ReceiveFrom | ch09/msg_server.c:69-85 | an error or an empty datagram changes nothing; any other is appended, with its whole text, exactly when fewer entries than slots are queued |
| LogServer.NothingClipped | ch09/msg_server.c:31-32 | the copies into a slot never cut what was received, which is at most 1023 characters and an address of 15 |
| LogServer.AcceptedWasSent | ch09/msg_server.c:23-85 | in every run the accepted entries are those of the datagrams that arrived, in order, less those that met a full queue and the one still in the producer's hands |
| LogServer.LoggedWasSent | ch09/msg_server.c:23-85 | so what is logged is at any time the first of the entries that arrived and were not dropped, and all of them whenever neither thread can move |
| LogServer.AllLogged | ch09/msg_server.c:40-63 | in every run the steps are bounded by the work there was, 27 for each datagram and twelve for each spurious wake-up, under any schedule; and whenever neither thread can move, everything accepted is logged |
| EchoServer.FiresExactly | ch09/chattingProgram/ex06.c:98 | after any reads by any clients, the test fires if and only if the last chunks to reach the first three positions had dots there |
| EchoServer.Keeps | ch09/chattingProgram/ex06.c:68-114 | every step of the loop, the kernel and the clients keeps the invariant of tables, batch, ready list and bytes |
| EchoServer.NoLostEvent | ch09/chattingProgram/ex06.c:68-113 | in every run a watched client with something to read is ready, in the rest of the batch, or being served; and a client is unwatched only around `accept` and `close` |
| EchoServer.BlockedMeansServed | ch09/chattingProgram/ex06.c:69 | when `epoll_wait` blocks, every open client has been echoed all it sent and none that hung up is open |
| EchoServer.GetsOn | ch09/chattingProgram/ex06.c:68-114 | the loop can make a productive step in every state but those in which `epoll_wait` has nothing to report |
| EchoServer.WorkPays | ch09/chattingProgram/ex06.c:68-114 | every step, for any batch and any length of a read, takes at least one from a measure of the work left; only clients, failing accepts and wake-ups for nothing add to it, by stated amounts |
| EchoServer.Settles | ch09/chattingProgram/ex06.c:68-114 | in every run the steps are bounded by the work there was and those amounts, so the loop comes to rest once nothing more is added; and it rests only with every open client echoed all it sent and every client that hung up closed |
| EchoServer.BatchValid | ch09/chattingProgram/ex06.c:70-113 | each event left names the connection it was reported for, open and watched, despite closes, accepts and reuse of descriptors; each `accept` finds a connection |
| EchoServer.NeverBlocks | ch09/chattingProgram/ex06.c:70-113 | the loop works on open descriptors only and has a step to make in every state |
| EchoServer.EchoesConsumed | ch09/chattingProgram/ex06.c:84-111 | what a client got back is what was read from it, less the chunk in hand while it is open, and less the chunk on which the test fired at its close; all it sent if it closed first |
| EchoServer.ClosesOnDotsExactly | ch09/chattingProgram/ex06.c:98-101 | the server closes a client on the test if and only if the chunks of all clients have put dots into the first three positions |
| EchoServer.TestIsRightExactly | ch09/chattingProgram/ex06.c:98 | the test says whether the chunk begins with "..." if and only if the chunk is not a short run of dots completed by stale dots |
| EchoServer.StaleDotsClose | ch09/chattingProgram/ex06.c:98-101 | a run in which a client that sent one dot is closed over bytes of another client |
| EchoServer.Drain | ch09/chattingProgram/ex06.c:85-106 | the read loop on the buffer in place: echoes every chunk before the first on which the test fires, and closes exactly if it fired or the reads ended otherwise than with EAGAIN |
| EchoServer.EventLoop.Serve | ch09/chattingProgram/ex06.c:85-111 | whatever arrives between its reads, the read loop ends and leaves the descriptor drained or closed |
| EchoServer.EventLoop.Welcome | ch09/chattingProgram/ex06.c:72-83 | `accept` takes the oldest waiting connection and watches it on its new descriptor, or fails and changes nothing but the batch |
| EchoServer.EventLoop.HandleBatch | ch09/chattingProgram/ex06.c:70-113 | the loop over a batch ends with every event handled, every open client watched, and each that has something to read on the ready list |
| Counter.Invariant | ch08/ex05.c:41-63 | in every interleaving at most one thread is inside and what it has read is the counter |
| Counter.NoLostUpdate | ch08/exercise.c:17-29 | whenever the mutex is free the counter is the number of completed critical sections, whichever threads were cancelled |
| Counter.NoDeadlock | ch08/exercise.c:13-16 | not even a cancellation leaves the mutex locked: a thread can move exactly while one has not ended |
| Counter.AllCounted | ch08/ex05.c:41-63 | every interleaving without a cancellation ends after four steps per thread and iteration, with the counter at threads times iterations |

## Left out

- What programs started by the shell do, terminal output, error messages, prompts and time: the
  outcome of every system call is an argument of the theorems. Builtins are only recognised by
  name; that `cd` changes where later files are opened is not modelled.
- Shell.Shell.RestoreStandard: takes the two restoring dup2 calls to succeed.
- Shell.Shell.Execute: requires descriptors 0 and 1 to be open when the shell is in `execute`.
- Shell.Shell.IsExecutable: requires at most 2047 tokens, because `pids` has 1024 entries and the
  code does not check it; a line has at most 127.
- Shell.Shell.ProcessLine: takes each `fgets` as one line; a longer input line comes in pieces.
- Shell.EndsWithItsStage: end of file only. Children, and the shell while it waits, also hold
  read ends of pipes, so nothing is claimed about a writer whose readers are gone. What a program
  does with its inherited descriptors after `execvp` is not modelled either.
- LineReaping.LineIsEvaluated: the machine starts a child or does not as its step says; the
  theorem is about the runs in which it does what the world's calls do.
- Reaping.CollectedOnce: a new child's id is not that of a child in the table nor one still listed
  in `pids`; with an id reused while it is listed, `&&` could compare the wrong one.
- Handoff.AllDelivered: starts from a fresh semaphore set that both processes have opened, with the
  receiver's first P not before the set is initialised to zeros; no crash, so SEM_UNDO never acts.
  The receiver's passes over the buffer (two comparisons and the output) are one read.
- LogServer.AllLogged: opening the log file and all output succeed; the datagram is what `recvfrom`
  returns, cut to 1023 bytes by it.
- EchoServer.EchoesConsumed: a `write` is whole or fails, and a failed `write` or EPOLL_CTL_ADD
  exits the server, after which nothing is claimed. A client does not vanish from the backlog
  before `accept`, and descriptor 0 is not free.
- EchoServer.Drain: is given the results of its reads; that they come from a client's bytes is the
  state machine's `Read` step.
- EchoServer.EventLoop.Serve: as much arrives as its argument says, which is finite; a client that
  sends without end would keep the loop, and no claim of fairness is made.
- EchoServer.EventLoop.Welcome: EPOLL_CTL_ADD succeeds, as `write` does in this class; that they
  fail, and the server exits, is a step of the state machine.
- The second shell in `lab2/`, `ch09/chattingProgram/ex05.c`, the unsynchronised pair
  `ch07/ex08-1.c` and `ch07/ex08-2.c`, and the other demos, servers and device programs.
