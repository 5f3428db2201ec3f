# pylibssh2: ownership and transfers

A Dafny model of the two parts of pylibssh2 that carry state of their own: the tree
of wrapper objects that owns libssh2 handles (C), and the loops that move data and
retry requests (Python). libssh2, the server and the network are an environment
that may answer anything its interface allows.

## The ownership tree

A session wrapper keeps three sets (sftps, channels, listeners), an sftp wrapper two
(directories, files). Members hold plain pointers back up. Nothing but the order of
adding, discarding, popping, closing and nulling keeps this safe.

* `LibSsh2` is the log of library calls and what makes it safe.
* `Machine` is the tree as a state machine. Actions are the API calls, one reference
  taken or dropped, and single steps of threads that run `Session_close`, the
  deallocation of a session, or an explicit close of one wrapper; steps end where the
  C code gives up the interpreter lock, so threads interleave there. A library call
  made without the lock is logged when it starts and when it comes back, and
  everything may happen in between: a method is two actions, `Method` and `Return`;
  the close of a directory, file or channel, the cancellation of a listener and the
  goodbye of a session are two steps of a thread. That holds for the cancellation in a
  listener's destructor too; the other destructors never have anything to close
  (`Ownership.DestructorsAreIdle`). `Machine.RunSftps`, `RunChannels` and
  `RunListeners` are the loops of src/session.c:154-168, `RunDirs` and `RunFiles`
  those of src/sftp.c:182-192, `DoOpen` is src/session.c:768-771, 810-814, 881-884,
  980-983 and 1137-1140, `DoOpenHandle` src/sftp.c:89-92 and 161-164, `Destroy`
  src/sftp.c:930-942, src/channel.c:1142-1152 and src/listener.c:134-144,
  `DoCloseChannel` src/session.c:904-905, `DoShutdownSftp` src/session.c:1004-1005,
  `DoCancel` src/session.c:1160-1161, `DoCloseFile` src/sftp.c:825-835 and 857-867. A
  constructor may fail, and the wrapper for a handle may fail to be allocated.
* `Invariant`, `Preservation`, `SessionPreservation`, `LogPreservation` and `Steps`
  show that every action keeps the invariant; `Cast` and `Calls` say what an action does
  to the set of wrappers and which call it makes, `Effects` what each call of the API
  does, to the last field. `Ownership`, `Exposure`, `Endings`, `Sequential` and
  `Completion` draw the theorems from it: what never happens, and what a call has
  achieved when it returns.
* `Wrappers` has the objects in the form of the C code, classes with fields that are
  nulled and sets that are popped; each method is proved against the exact calls it
  makes (`Traces`). `Rounds` and `Refinement` find, for every order in which the sets can
  be popped, a run of the machine in which one thread makes these calls; `Renaming` and
  `Simulation` tie the two together: an object that agrees with a state of the machine
  agrees with it again after `Close` or `Dealloc`, and has made the calls of a run.

What the code does not achieve is stated as exactly.

* A handle leaks if its wrapper cannot be allocated, and `scp_recv` leaks one reference
  to each channel.
* Three kinds of call can be at work on a dead handle: those of methods, the
  cancellation of listeners, and explicit closes of directories and files. A run is
  safe exactly if none of six things happens in it: a method starts on a directory or
  file that some thread has just given back but not yet set to NULL; a method comes
  back from libssh2 after its handle was given back; the last reference to an open
  listener is dropped after its session was freed; such a listener is cancelled
  explicitly; the cancellation of a listener that was dropped or cancelled in time
  comes back after its session was freed; an explicit close of a directory or file
  comes back after its sftp was shut down. `Witnesses` has a run for each. All other
  calls start on live handles in every run, and what a teardown calls also comes back
  in time.
* A listener is cancelled by `Session_close` only if the set held its last reference.

## Transfers and retries

`ScpSend`, `ScpReceive`, `Draining`, `Transfer`, `Rename`, `Agent`, `Listing`,
`Batches` and `Flags` take the loops one by one. A schedule says how much each call
takes or gives and which one fails, and the theorems hold for every schedule.
Several loops do less than they are meant to:

* `scp_send_file` cuts `buf[written:-1]` after a short write. It delivers the file
  exactly when every chunk is taken whole; otherwise each short write costs one byte,
  and nothing after that chunk is sent. Cutting `buf[written:]` is not enough: the
  loop then still stops after a short-written chunk. With a refill of the empty
  buffer as well it delivers on every schedule. All three are modelled and related.
* `put` ignores what `write` returns; `get` and `read(-1)` take a failed read for the
  end of the data.
* `copy_file` onto the same path empties the file, and `rename` onto the same path
  deletes it.
* `list_files` drops everything if the directory cannot be read to its end, and
  answers None instead of raising for codes other than -1.
* `userauth_agent` reports success when the agent cannot be connected to.

## Model

| member | source | states |
|---|---|---|
| `Steps.StepInv` | src/session.c:145-179 | every action of every thread keeps the invariant of the tree, its reference counts and its call log |
| `Steps.ReachableInv` | src/session.c:1496-1519 | so every state that any run reaches satisfies it |
| `Ownership.AtMostOnce` | src/session.c:153-168 | in any run, whoever closes it and through whichever owner, no handle is given back twice |
| `Ownership.ChildExactlyOnce` | src/session.c:1496-1519 | once a session is freed each channel and sftp opened on it was given back exactly once, except those whose wrapper could not be allocated, never |
| `Ownership.FileExactlyOnce` | src/sftp.c:173-196 | the same for directories and files of its sftps |
| `Exposure.NoDeadHandle` | src/channel.c:425-428 | the calls of a run are on live handles, from their start to their end, exactly when no action of the run is exposed when it happens; likewise those of methods alone, the starts of cancellations, and the ends of closes and cancellations |
| `Exposure.TeardownInTime` | src/sftp.c:182-196 | in every run what a teardown, or the shutdown of an sftp, has called without the lock comes back before the sftp or session it works below is given back |
| `Exposure.OtherCalls` | src/sftp.c:172-196 | in every run all calls but those of methods and cancellations start on handles that are live and below live ones; an sftp is shut down after the closes of its files and directories have started, a session freed after its channels are and its sftps were shut down |
| `Exposure.HandleUsable` | src/sftpdir.c:34-37 | a channel, sftp, directory or file handle can be used exactly until the field is NULL or the close of the directory or file has given up the lock |
| `Exposure.ListenerUsable` | src/listener.c:81-89 | the handle of a listener can be used exactly until its cancellation starts or its session is freed |
| `Exposure.CallStrict` | src/sftpfile.c:58-75 | an action makes or ends its call on a dead handle exactly when it is exposed, which shows in the state before |
| `Exposure.MethodsReturn` | src/sftpfile.c:73-75 | a method under way holds a reference to its wrapper and can always come back |
| `Witnesses.ReadDuringClose` | src/sftpdir.c:59-72 | a run in which a directory is read while the close of the session gives it back |
| `Witnesses.ReadAcrossClose` | src/channel.c:441-443 | a run in which a read comes back on a channel that was freed |
| `Ownership.SurvivorsAreNull` | src/sftpfile.c:58-61 | a wrapper that outlives its session has a NULL handle and its methods return at the guard, exactly unless an explicit close of a directory or file is still under way |
| `Ownership.TrackedWhileOpen` | src/sftp.c:89-92 | an open wrapper is in its owner's set or in the hands of a thread; its session is up unless a thread has the wrapper, or the sftp above it, in its hands |
| `Ownership.DownIsEmpty` | src/session.c:153-174 | a session that is not up has empty sets, and what is still open below it a thread has in its hands |
| `Ownership.DestructorsAreIdle` | src/sftpdir.c:191-202 | a wrapper that loses its last reference has been closed before: the close in the destructor fires for listeners only |
| `Ownership.ReferenceCount` | src/session.c:154-168 | a count is the program's references, plus the set that contains the wrapper, plus the thread at work on it, plus what was leaked |
| `Ownership.LeakedReferences` | src/session.c:810-814 | leaked references arise in `scp_recv` only, one each, and never change |
| `Ownership.SessionReferenceCount` | src/session.c:1496-1519 | a session's count is the program's references plus one for each close under way on it or, through it, on a channel or sftp of it |
| `Ownership.OneThreadPerWrapper` | src/session.c:153-168 | no two threads ever have the same child in their hands, be they closing the session or the child |
| `Ownership.TeardownComplete` | src/session.c:153-179 | when a session is down and its threads are back, every wrapper below it is closed, untracked and was given back exactly once |
| `Ownership.NeverStuck` | src/session.c:154-155 | a thread that is not done can go on: no pop meets an empty set |
| `Ownership.WorkDecreases` | src/sftp.c:182-192 | each step of a teardown lowers a measure built from the membership of all sets |
| `Ownership.TeardownTerminates` | src/session.c:153-179 | so all teardowns together end within that many steps, however interleaved |
| `Endings.CloseAgain` | src/session.c:153-178 | in every run, once a close of an open session has come back and short of another startup, closing it again is no action at all |
| `Endings.CloseOnceMore` | src/session.c:1004-1005 | in every run, closing a channel, sftp, directory or file that was given back, or cancelling a listener that was, starts no thread and makes no call on it |
| `Completion.CloseCompletes` | src/session.c:893-910 | in every run, a call that closes an open wrapper, the drop of a listener's last reference included, starts a thread that has the wrapper in its hands until it returns; then the wrapper is closed and was given back exactly once |
| `Completion.ClosedSftpBelow` | src/sftp.c:182-195 | and with an sftp each of its directories and files was given back exactly once |
| `Completion.CloseSessionCompletes` | src/session.c:144-179 | in every run, a close of a session that is up starts a thread; once that is back the session has disconnected since the call, and is down unless it was started again |
| `Completion.DeallocCompletes` | src/session.c:1496-1519 | in every run, the last reference to a session starts a thread, and the session is freed, exactly once, when that is back and not before |
| `Completion.ThreadsFinish` | src/session.c:153-179 | in every state of every run each thread can come back by its own steps |
| `Completion.Admits` | src/session.c:893-910 | however many teardowns are under way, short of a close through another owner, the program can call methods of what it refers to, close it through its owner unless a thread has it in its hands, and drop it |
| `Effects.CloseChannelEffect` | src/session.c:904-905 | the session discards the channel if it tracks it; an open one is closed by a thread that refers to it and to the session if that is its own; all else stays |
| `Effects.ShutdownSftpEffect` | src/session.c:1004-1005 | the same for an sftp, whose directories come first |
| `Effects.CancelListenerEffect` | src/session.c:1160-1161 | the same for a listener; a closed one is cancelled as NULL |
| `Effects.CloseFileEffect` | src/sftp.c:825-835 | a closed sftp closes nothing; an open one discards and closes any directory or file, also one closed before |
| `Effects.CloseSessionEffect` | src/session.c:153-155 | a close of a session that is up starts a thread that refers to it; any other does nothing |
| `Effects.DropSessionEffect` | src/session.c:1500-1507 | exactly the last reference starts the deallocation, with the loops if the session is up |
| `Effects.StartupEffect` | src/session.c:47-92 | a success raises the flag, a failure leaves it; nothing else changes |
| `Effects.NewSessionEffect` | src/session.c:1466-1491 | a new session belongs to the program, once, and is not up |
| `Effects.OpenEffect` | src/session.c:768-771 | NULL changes nothing, a handle without a wrapper is lost, any other is tracked with the right counts; all else stays |
| `Effects.OpenHandleEffect` | src/sftp.c:161-164 | the same below an sftp; nothing at all if that is closed |
| `Effects.DropEffect` | src/listener.c:134-144 | a reference less; the last one to an open listener starts its cancellation |
| `Effects.MethodEffect` | src/channel.c:425-441 | nothing on a closed wrapper; else libssh2 is entered with a reference to the wrapper |
| `Effects.ReturnEffect` | src/channel.c:441-443 | the method comes back on the handle it took and gives its reference up |
| `Effects.CloseEndEffect` | src/channel.c:36-38 | at the end of an explicit close the wrapper is nulled and loses the thread's reference |
| `Effects.CloseReturnEffect` | src/session.c:1496-1507 | a close that held the last reference to its session goes on to deallocate that |
| `Endings.GoodbyeBeforeFree` | src/session.c:1503-1507 | in every run, with any number of threads, a session is freed only when a disconnect came after its last successful startup |
| `Ownership.ListenerPop` | src/session.c:165-168 | a popped listener is cancelled exactly when the set held its last reference |
| `Ownership.ListenersEnd` | src/session.c:165-168 | in every run a listener was cancelled exactly once if its field is NULL or a thread has it in its hands, else never; it was when no reference is left |
| `Witnesses.CancelAfterFree` | src/listener.c:134-144 | a run in which the last reference to a listener is dropped after its session was freed, and cancels it |
| `Witnesses.CancelThroughOther` | src/session.c:1149-1165 | a run in which such a listener is cancelled through another session |
| `Witnesses.CancelAcrossFree` | src/listener.c:84-87 | a run in which the last reference to a listener is dropped in time and its session is freed before the cancellation comes back |
| `Witnesses.CloseAcrossFree` | src/sftpdir.c:34-37 | a run in which a directory is closed explicitly and its session is deallocated before that comes back |
| `Sequential.TeardownOrder` | src/session.c:153-174 | in every single-threaded run a session disconnects after all its children are back, children go before their owners, and a session that was started is disconnected before it is freed |
| `Refinement.CloseIsARun` | src/session.c:145-179 | for every order in which the sets of a session can be popped there is a run of one thread with that trace, and what it makes of every wrapper |
| `Simulation.Close` | src/session.c:145-179 | the method `Session.Close`, on objects that agree with a state of the machine: its calls are those of a run, hence safe, and all objects agree with the state after that run |
| `Refinement.DeallocIsARun` | src/session.c:1496-1519 | the same for the deallocation of a session that is up |
| `Simulation.Dealloc` | src/session.c:1496-1519 | the same for the method `Session.Dealloc` |
| `Wrappers.Channel.Close` | src/channel.c:28-40 | closes and frees an open channel, nothing for a closed one; the field is NULL after |
| `Wrappers.Channel.DecRef` | src/channel.c:1142-1152 | the last reference closes what is open |
| `Wrappers.Channel.Use` | src/channel.c:205-212 | a closed channel raises, and libssh2 is not called |
| `Wrappers.Listener.Cancel` | src/listener.c:81-89 | cancels, also NULL, and nulls the field |
| `Wrappers.Listener.DecRef` | src/listener.c:134-144 | the last reference cancels an open listener |
| `Wrappers.SftpHandle.Close` | src/sftpdir.c:30-38 | closes, also NULL, and nulls the field |
| `Wrappers.SftpHandle.DecRef` | src/sftpfile.c:226-237 | the last reference closes an open handle |
| `Wrappers.Sftp.OpenHandle` | src/sftp.c:37-94 | the new wrapper has two references and is in the right set; NULL answers, closed sftps and failed allocations |
| `Wrappers.Sftp.CloseHandle` | src/sftp.c:819-839 | discards from the set of that kind only, whatever wrapper is given, closes it in any case, drops one reference if it was there |
| `Wrappers.Sftp.Shutdown` | src/sftp.c:172-196 | closes all directories, all files, then the sftp, each once; afterwards both sets are empty; nothing the second time |
| `Wrappers.Sftp.DecRef` | src/sftp.c:930-942 | the last reference shuts an open sftp down |
| `Wrappers.Session.Startup` | src/session.c:35-93 | the session is up from the first startup that succeeds, which the log shows |
| `Wrappers.Session.OpenChannel` | src/session.c:790-815 | the new channel is tracked, with two references, three from `scp_recv` |
| `Wrappers.Session.CloseChannel` | src/session.c:893-910 | closes any channel, drops the set's reference only if this session tracked it |
| `Wrappers.Session.Listen` | src/session.c:1089-1142 | the new listener is tracked, with two references |
| `Wrappers.Session.CancelListener` | src/session.c:1149-1165 | cancels any listener, also one cancelled before |
| `Wrappers.Session.InitSftp` | src/session.c:944-985 | the new sftp is tracked, empty, with two references |
| `Wrappers.Session.ShutdownSftp` | src/session.c:993-1010 | shuts any sftp down, drops the set's reference only if this session tracked it |
| `Wrappers.Session.SftpGrew` | src/sftp.c:161-165 | a session stays well-formed when one of its sftps opens a file |
| `Wrappers.Session.CloseSftps` | src/session.c:154-158 | each sftp is shut down once, with all that is below it, in the order popped |
| `Wrappers.Session.CloseChannels` | src/session.c:160-164 | each channel is closed once and loses one reference |
| `Wrappers.Session.DropListeners` | src/session.c:165-168 | each listener loses one reference and is cancelled if that was the last |
| `Wrappers.Session.Close` | src/session.c:144-179 | the exact calls of a close for any order of pops, what is NULL after it, and nothing at all if the session is not up |
| `Wrappers.Session.Dealloc` | src/session.c:1496-1519 | those calls and then the session's free, once |
| `ScpSend.DeliversPrefix` | libssh2/session.py:216-227 | whatever writes take, the far side holds a prefix of the file |
| `ScpSend.WholeIffFullWrites` | libssh2/session.py:216-227 | the loop ends with the whole file delivered exactly when each chunk is taken in one go by the first write that takes any of it |
| `ScpSend.SendsExactly` | libssh2/session.py:216-227 | what arrives and how the loop ends on any other schedule: the chunks taken whole, and of the next one all but one byte for each short write, or what was taken when the loop waits or a write raises |
| `ScpSend.SendsOneWay` | libssh2/session.py:216-227 | every schedule is of one of these kinds |
| `ScpSend.ShortWriteExample` | libssh2/session.py:225 | two bytes, one short write: the loop ends and a byte is lost |
| `ScpSend.KeepingWholeIff` | libssh2/session.py:220-225 | with `buf[written:]` alone the file arrives exactly when every chunk but the last is taken in one go |
| `ScpSend.KeepingExactly` | libssh2/session.py:220-225 | otherwise the chunks taken whole arrive, and of the next one what the writes take |
| `ScpSend.KeepingExample` | libssh2/session.py:222-225 | one short write of a full chunk and the rest is never read |
| `ScpSend.RefillingDone` | libssh2/session.py:216-227 | with a refill as well, a loop that ends has delivered everything |
| `ScpSend.Finishes` | libssh2/session.py:216-227 | every form of the loop ends once as many writes as there are bytes took something |
| `ScpSend.EndlessSchedule` | libssh2/session.py:216-227 | on an endless schedule with finitely many empty writes the repaired loop delivers the file; the loop as written ends too |
| `ScpSend.NeverAhead` | libssh2/session.py:216-227 | on each schedule the loop as written delivers a prefix of what the repaired one delivers |
| `ScpSend.ScpChannel.Write` | src/channel.c:569-620 | a write takes a prefix of its buffer or raises |
| `ScpSend.ScpChannel.SendLoop` | libssh2/session.py:216-227 | the loop does what the specification function says, for every schedule |
| `ScpSend.ScpChannel.SendFile` | libssh2/session.py:208-235 | and when EOF is sent and the channel closed, depending on what raises after the loop |
| `ScpReceive.ReceivesPrefix` | libssh2/session.py:245-264 | the local file is the start of the stream, never longer than announced, and the loop is done exactly when it is that long |
| `ScpReceive.ReceivesExactly` | libssh2/session.py:245-264 | on every schedule how many bytes are stored, in terms of the reads before the first that raises, and how the loop ends |
| `ScpReceive.EndsIff` | libssh2/session.py:248-255 | given enough non-empty reads the loop ends exactly when the stream holds the announced size |
| `ScpReceive.ScheduleIndependent` | libssh2/session.py:248-255 | how reads are cut does not show in the file |
| `ScpReceive.EndToEnd` | libssh2/session.py:208-268 | sender and receiver together, however the sender ends: the file arrives if its writes were full, otherwise the receiver stores what there is and waits forever |
| `ScpReceive.ScpSource.ReceiveFile` | libssh2/session.py:237-268 | what is stored is what was taken from the channel, all of it or, on a full disk, all that fits and at most one read less; the channel is closed once, whether a read or a write raises or none; it stays open if the local file cannot be opened |
| `ScpReceive.ScpSource.ReadAll` | libssh2/channel.py:158-170 | `read(-1)` of a channel returns what the draining loop gives |
| `Draining.DrainExact` | libssh2/sftpfile.py:48-60 | reading until nothing comes returns as many bytes as the reads before the first empty, failed or None one allow; it goes on waiting exactly if there is no such read and data is left |
| `Draining.DrainWholeIff` | libssh2/sftpfile.py:48-60 | that is all of it exactly when nothing interrupts before the end |
| `Draining.PositiveReadsSuffice` | libssh2/channel.py:160-169 | non-empty reads of any sizes suffice |
| `Flags.FlagsMeaning` | src/util.c:33-39 | each bit of the mask in terms of the letters in the mode |
| `Flags.GetFlags` | src/util.c:25-48 | the loop over the table computes that mask |
| `Transfer.OpenModes` | src/util.c:33-45 | "w" creates and truncates and cannot fail for a path's sake, "r" changes nothing and needs the file |
| `Transfer.StoreAccepted` | libssh2/sftp.py:218-222 | on every schedule `put` leaves the accepted prefixes of the chunks it got to offer, and whether it then ends, raises or waits |
| `Transfer.WriteAtBytes` | src/sftpfile.c:115-120 | the bytes of a file after a write at an offset, one by one |
| `Transfer.OtherModes` | src/util.c:33-37 | "a" needs the file, "x" needs that there is none |
| `Transfer.StoreWholeIff` | libssh2/sftp.py:218-222 | that is the source exactly when every write was full |
| `Transfer.PutGet` | libssh2/sftp.py:187-225 | `put` then `get` returns the original exactly when every write was full and the reads were not interrupted |
| `Transfer.CopyIff` | libssh2/sftp.py:131-136 | `copy_file` copies exactly when paths differ and the reads and its single write are complete, or the source is empty; other paths stay |
| `Transfer.CopyLeaves` | libssh2/sftp.py:131-136 | what is at the target otherwise: the part of the source that the reads gave and the write took, nothing for one path or if it does not end |
| `Transfer.CopyEnds` | libssh2/sftp.py:131-136 | when it ends, raises or waits |
| `Transfer.Sftp.Write` | src/sftpfile.c:101-129 | writes a prefix at the handle's offset and advances it, or raises; needs the write flag |
| `Transfer.Sftp.Read` | src/sftpfile.c:50-89 | returns what follows the offset and advances it, None if the read fails or the handle is not open for reading |
| `Transfer.Sftp.ReadAll` | libssh2/sftpfile.py:44-62 | `read(-1)` of a file returns what the draining loop gives from the offset on |
| `Transfer.Sftp.Put` | libssh2/sftp.py:208-225 | the server's files after `put`, in every case, and which handles stay open when it raises |
| `Transfer.Sftp.Get` | libssh2/sftp.py:187-206 | the local files after `get`, also when the local file cannot be opened or the disk is full; a missing source leaves the local file alone |
| `Transfer.Sftp.CopyFile` | libssh2/sftp.py:131-136 | the server's files after `copy_file`, in every case |
| `Rename.RetriedCodes` | src/sftp.c:1085-1155 | exactly the status codes 4, 6, 9 and 16 become EIO |
| `Rename.RetryIff` | libssh2/sftp.py:116-119 | the retry happens exactly when the target exists or the server says one of those |
| `Rename.ReplyExact` | libssh2/sftp.py:116-121 | which exception the caller sees, or none, for any two paths and any troubles: that of the first move, of the unlink or of the second move |
| `Rename.FilesExact` | libssh2/sftp.py:116-121 | and which files there are then |
| `Rename.Replaces` | libssh2/sftp.py:109-121 | left alone, `rename` moves the content onto the target and leaves the rest |
| `Rename.NothingLost` | libssh2/sftp.py:109-121 | whatever fails, distinct paths keep the content at one of the two; only three outcomes; success means moved |
| `Rename.TargetLostIff` | libssh2/sftp.py:117-119 | exactly when the old target is gone with nothing in its place |
| `Rename.SamePath` | libssh2/sftp.py:109-121 | renaming a path to itself never succeeds, and exactly when it deletes the file |
| `Rename.Sftp.Rename` | libssh2/sftp.py:109-121 | the method makes those requests in that order, with the retry only on EIO |
| `Agent.Authenticate` | src/session.c:558-617 | identities are offered in order, the last once more, NULL if there are none, up to the first accepted; which error is raised when |
| `Agent.ErrorIff` | src/session.c:583-597 | each of the two errors of the loop exactly when, and how many offers were made |
| `Agent.AcceptedIff` | src/session.c:582-598 | it succeeds exactly if an offer reached before `get_identity` fails is accepted |
| `Agent.FirstAccepted` | src/session.c:582-616 | with fixed verdicts it raises exactly if no identity is acceptable, stops at the first one that is, after at most n+1 offers |
| `Agent.OutcomeUnique` | src/session.c:582-598 | the agent and the server determine the outcome |
| `Listing.LastWins` | src/sftpdir.c:119-148 | the dictionary has the names that occur, each with its last attributes |
| `Listing.ReadsThenList` | src/sftpdir.c:50-149 | after any number of reads of a directory that can be read to its end `list_files` answers with exactly the rest, the same as reading on |
| `Listing.ReadsInOrder` | src/sftpdir.c:50-92 | each entry in turn, then None, however often |
| `Listing.FailsWith` | src/sftpdir.c:78-143 | how reading fails: both methods raise for code -1 and answer None for any other, and use up the failing reply only |
| `Listing.ListIsAllOrNothing` | src/sftpdir.c:132-143 | it agrees with stepwise reading exactly when the directory can be read to its end |
| `Listing.SftpDir.Read` | src/sftpdir.c:50-92 | the next entry, None, or an exception; one reply is used up |
| `Listing.SftpDir.ListFiles` | src/sftpdir.c:104-149 | the loop fills the dictionary of all leading entries, and returns it only at the end |
| `Batches.WordsOfCommand` | libssh2/session.py:449 | the shell sees the intended names exactly when none is empty or has a blank |
| `Batches.CommandText` | libssh2/session.py:449 | the text of a command for any names, to the letter |
| `Batches.CommandAt` | libssh2/session.py:445-450 | the i-th command is for names 100 i to 100 i + 99, and how many commands there are |
| `Batches.CommandsCover` | libssh2/session.py:445-450 | all commands together mention each name once, in order, and there are n/100 of them, rounded up |
| `Batches.Session.Mv` | libssh2/session.py:443-455 | one channel and one command a batch, until one fails |
| `Streams.ConcatChunks` | libssh2/session.py:446-450 | cutting into batches or buffers loses and reorders nothing |
| `Streams.ChunkSizes` | libssh2/session.py:447 | no chunk is empty or too long, all but the last are full |
| `Streams.ChunkCount` | libssh2/session.py:445-450 | there are as few as possible |

## Left out

- libssh2, sockets, key exchange and packet formats: the environment of the model.
- Channels from `Listener_accept`, `direct_tcpip` and the X11 callback: never tracked, and `direct_tcpip` returns a bare pointer (src/session.c:1066). `Listener_accept` itself is left out with them; it is the one method that passes its handle on without a check (src/listener.c:41).
- Constructors and startup while another thread ends that session, and opening a file while its sftp is shut down: the code has no lock for these, and the machine does not allow them. Methods and explicit closes run beside any teardown.
- Two threads closing the same object at once; a close through another owner, which leaves the wrapper in its own owner's set, beside any other teardown below that session, the cancellation by a last reference included: the code has no lock for these either.
- A second `startup` as far as the socket goes: it overwrites the first without releasing it (src/session.c:47-48).
- Python's set hashing and comparison: sets hold wrappers by identity.
- Memory of closed directory and file wrappers, which is reclaimed only if the handle was open (src/sftpdir.c:195-200): the model is about handles.
- Error messages, and every switch that only chooses one.
- `set_stat` and `get_stat`: all of owner and times go to one field (src/sftp.c:755-770).
- The branch of `mv` for a single name: it uses a channel that was never opened (libssh2/session.py:457).
- Modes and times set after a transfer, logging and printing.
- Rename.NothingLost: does not cover other clients that change the server between the requests.
- ScpSend.Finishes: a schedule is a finite list; a loop still waiting at its end is `Pending`. Endless ones are covered by `EndlessSchedule`.
- Listing.SftpDir.Read: does not model the Python exception that a failed resize leaves pending next to the None it returns.
- Batches.WordsOfCommand: words are split at blanks only; quotes, wildcards and other shell syntax in names are not interpreted.
- Batches.Session.Mv: opening a channel and executing the command fail together; the channel of a command that failed is left to the session's close.
- Agent.Authenticate: with no identities the C code offers NULL to libssh2; the model records the offer, not what libssh2 does with it.
- Transfer.Sftp.Get: closing the local file does not fail; a write that does not fit raises at once, whatever Python buffers.
- ScpReceive.ScpSource.ReceiveFile: the same for its local file.
- Wrappers: `Close` and `Dealloc` of a session are tied to runs of the machine; the other methods are proved against their exact calls and fields only.
- Machine: the reference whose loss starts a destructor stays counted while that shuts an sftp down or cancels a listener.
- Machine: a call through another session holds a reference to that session for its duration; the machine counts only the reference to the wrapper's own.
