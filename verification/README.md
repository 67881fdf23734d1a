# nokkud, verified

nokkud is an SSH daemon. It decides logins from an access list it syncs from a backend, closes connections whose
access was revoked, and records sessions and uploads the recordings. Its hard parts are small state machines that
run concurrently under locks and channels. This project models them in Dafny and proves what they guarantee in every
interleaving.

## How the model is built

- A protocol is a `State`, its actions `Act`, a guard `Can`, a step `Do` and `Exec`, which runs a list of actions.
  One action is one critical section, one channel operation or one call on a stream. What the network, the clock,
  the disk or the operating system decide is part of the action, so a theorem about `Exec` covers every
  interleaving and every outcome.
- Where the source is an object with fields or a loop, there is a class with those fields or a method with that
  loop. Its contract ties it to the function the state machine uses.
- `Can` never limits a run beyond what the code or its environment does. The assumptions about the environment are
  stated there: a failed send of Final surfaces in the final answer; Listen keeps a port that was asked for and does
  not hand out an ephemeral one that is in use; CreateTemp does not return a name it returned before; the flush of a
  header writes something; and the clock that decides about retired CAs does not run back.

| file | part of nokkud |
|---|---|
| `Prelude.dfy` | sequences and decimal text |
| `Utf8.dfy`, `Interval.dfy`, `Recorder.dfy` | the session recorder |
| `Uploader.dfy`, `Delivery.dfy` | the live upload, and a recording up to the removal of its file |
| `Pending.dfy`, `Retention.dfy` | the retry of uploads, the limits |
| `Records.dfy`, `Coverage.dfy`, `Window.dfy` | the recordings directory with all of these at once, what a scan gets done, and active recordings |
| `Access.dfy`, `Revocation.dfy` | the access list, the trusted CAs, logins and revokes |
| `Startup.dfy`, `Forward.dfy` | slots before authentication, channel slots and remote forwards |
| `Session.dfy`, `Signals.dfy` | session requests, signals and the process |
| `Relay.dfy`, `Watcher.dfy`, `HostCerts.dfy` | relayed connections, the wakeup of the certificate watcher, renewal times |

## Where the code does less than it seems

Each of these is a lemma with a concrete input or run, named first, next to a lemma with the exact condition.

- `UnreadableIntervalHappens`, `UnreadableInterval`: an event at the very instant of the one before it, with the
  printed time half a millisecond ahead, gets the interval `0.-01`, which is no number. The fuzz test at
  internal/recording/recorder_fuzz_test.go:99 expects one.
- `FinalMayFollowPrefix`, `AckedCompleteIffNoError`: an acknowledged stream that ends in Final may lack a chunk. A
  full queue records an error but leaves the sender going. Only the answer of Close decides.
- `StuckLosesFooter`, `UnlinkedMeansDelivered`: after a failed write to the file, gzip never writes its footer, and
  the file is removed all the same once the upload of the rest is confirmed.
- `WindowLosesRecording`, `OnlyTheWindowIsUnsafe`: between the creation of a recording and its mark as active the
  retry loop can take it for a leftover, fail to read its header and remove it.
- `ListenerWithoutSlot`, `OpenListenerHoldsSlot`: after an error of Accept the listener of a remote forward stays
  open without its slot, although SECURITY.md:111 says that it holds one for as long as it is open.
- `CancelMissesForward`, `CancelUndoesForward`: a forward cannot be cancelled while a change of the gateway policy
  gives its address another meaning.
- `ForeignKeyWaits`, `WaitsOnForeignKey`: the next renewal is computed without a look at the host key, so a
  certificate of another key is kept until its own deadline.
- `NameWithEqualsSign`, `SetKeepsOther`: setting one environment variable can change the value read for another,
  when a name contains an equals sign.

## Model

| member | source | states |
|---|---|---|
| Utf8.SanitizeKeepsWellFormed | internal/recording/recorder.go:262-270 | encoding keeps a stream byte for byte exactly when it is well-formed UTF-8 (section 4 of RFC 3629), and otherwise makes it longer |
| Utf8.CharLenIsEncoding | internal/recording/recorder.go:262-270 | the table accepts n bytes exactly if they are the encoding of a code point, by the arithmetic of section 3 of RFC 3629 |
| Utf8.WellFormedIsEncoding | internal/recording/recorder.go:262-270 | well-formed are exactly the encodings of sequences of code points |
| Utf8.SanitizeByCodePoint | internal/recording/recorder.go:262-270 | a code point that is next goes through as it is, and where none is next one byte becomes U+FFFD |
| Utf8.FullRuneIsNotHead | internal/recording/recorder.go:252-255 | the library's table test for a full character is false exactly on the beginnings some continuation would complete |
| Utf8.HeadIsBeginning | internal/recording/recorder.go:248-259 | what may be held back is exactly a proper beginning of the encoding of some code point |
| Utf8.HeadUnique | internal/recording/recorder.go:248-259 | at most one suffix of the data is the beginning of a character, so what to hold back is determined |
| Utf8.CutIsBoundary | internal/recording/recorder.go:216-218 | whatever bytes follow, no character lies across the place where the data is cut |
| Utf8.CarriedHeadSplits | internal/recording/recorder.go:212-218 | encoding up to the cut now and the rest with what follows equals encoding it all at once |
| Utf8.IncompleteTail | internal/recording/recorder.go:248-259 | the loop over the last three bytes finds the proper beginning of an encoding that the data ends in, at most three bytes, and 0 exactly if it ends in none |
| Recorder.RecordingShowsWholeStream | internal/recording/recorder.go:201-229 | for every way of cutting streams into events, other kinds interleaved and a size limit included, a closed recording shows what encoding the whole stream at once shows, and an open one holds back at most three bytes |
| Recorder.ExitIsLastEvent | internal/recording/recorder.go:291-318 | for every sequence of calls there is an exit event exactly if the recording ended and a status was recorded before that; it is the only one, the last event, and its text reads back as the last such status |
| Recorder.CloseWritesInOrder | internal/recording/recorder.go:303-318 | closing appends what was held back of the output, then of the input, and the status last |
| Recorder.ResizeReads | internal/recording/recorder.go:287-289 | the text of a resize is the width, an x and the height |
| Recorder.PrintedTimeIsRealTime | internal/recording/recorder.go:232-246 | after any number of events the printed milliseconds and, of every gap, the time beyond two seconds sum to the time since the start within half a millisecond |
| Recorder.UnreadableInterval | internal/recording/recorder.go:272-277 | with a clock that does not run back, an interval is printed as a readable number unless its gap is zero while the printed time is exactly half a millisecond ahead, and then it is not |
| Recorder.UnreadableIntervalHappens | internal/recording/recorder.go:272-277 | two events at the same instant, half a millisecond after the start, print an interval that is no number |
| Interval.CarryStaysSmall | internal/recording/recorder.go:272-276 | the carry stays within half a millisecond and rounding loses no time |
| Interval.NegativeInterval | internal/recording/recorder.go:272-276 | an interval is negative exactly when a carry of minus one half meets no gap, and then it is minus one |
| Interval.PrintRoundTrip | internal/recording/recorder.go:276-276 | the printed text is a number that reads back as the interval exactly when the interval is not negative |
| Recorder.SessionRecorder.constructor | internal/recording/recorder.go:163-173 | a new recorder has an empty log, nothing held back and no carry |
| Recorder.SessionRecorder.Emit | internal/recording/recorder.go:232-246 | appends one event with its rounded, clamped interval and carries the rounding error on |
| Recorder.SessionRecorder.HandleEvent | internal/recording/recorder.go:201-229 | emits the data up to the cut and holds the rest, or closes the recording and reports the limit |
| Recorder.SessionRecorder.RecordExit | internal/recording/recorder.go:291-301 | remembers the status unless the recording is closed |
| Recorder.SessionRecorder.CloseLocked | internal/recording/recorder.go:303-318 | writes what was held back of output and input, then the exit event, and only once |
| Uploader.CloseNilMeansComplete | internal/recording/uploader.go:79-146 | in every interleaving, if Close returns nil the backend acknowledged one stream of Meta, every chunk written before Close in order, and Final, or there was nothing to send and no stream was opened |
| Uploader.CloseTellsTheTruth | internal/recording/uploader.go:79-101 | unless Close gave up waiting, it returns nil exactly if there was nothing to send or the backend acknowledged all of it |
| Uploader.NobodyBlocks | internal/recording/uploader.go:58-146 | a write never waits and costs the upload exactly if 64 chunks are waiting; the sender and Close can always go on, whatever the stream answers, unless they wait for a chunk or for the sender |
| Uploader.WireIsPrefix | internal/recording/uploader.go:58-146 | at every step the wire is Meta and a gap-free prefix of the chunks written, and at most 64 chunks are queued |
| Uploader.AckedCompleteIffNoError | internal/recording/uploader.go:70-75 | an acknowledged stream is complete exactly when no error was recorded |
| Uploader.FinalMayFollowPrefix | internal/recording/uploader.go:70-75 | a run in which an overflow is followed by an acknowledged Final although a chunk is missing, and Close fails |
| Uploader.NoSendOnClosedChannel | internal/recording/uploader.go:59-87 | once the channel is closed a Write changes nothing, so none sends on it |
| Uploader.ErrorIsSticky | internal/recording/uploader.go:171-188 | an error stays, the answer of Close is final and nothing written after Close counts |
| Uploader.LiveUpload.constructor | internal/recording/uploader.go:38-56 | a new uploader is the initial state |
| Uploader.LiveUpload.Write | internal/recording/uploader.go:58-77 | drops what is empty, late or after a failure, enqueues otherwise, and fails the upload when the queue is full |
| Uploader.LiveUpload.FailLocked | internal/recording/uploader.go:177-188 | the first error is kept |
| Uploader.LiveUpload.SendChunk | internal/recording/uploader.go:109-132 | one round of the sender at any time, whatever the stream answers: discarded on a broken stream, otherwise sent, on a stream that the first chunk opens |
| Uploader.LiveUpload.SendEnd | internal/recording/uploader.go:134-145 | Final only on a healthy stream, and a failed answer is recorded |
| Uploader.LiveUpload.SendLoop | internal/recording/uploader.go:103-146 | the loop from its start, with writes and the close by others between its receives: it waits on an empty queue and is done when the channel is closed and drained |
| Uploader.LoopIsRun | internal/recording/uploader.go:103-146 | whatever others do between the receives, all the loop does is a run of the state machine |
| Uploader.LiveUpload.MarkClosed | internal/recording/uploader.go:82-85 | the closed flag is set before anything else of the close |
| Uploader.LiveUpload.Result | internal/recording/uploader.go:98-100 | Close succeeds exactly without an error and without a timeout |
| Delivery.UnlinkedMeansDelivered | internal/recording/recorder.go:303-340 | when the live path removes the file, the backend has acknowledged exactly the bytes gzip wrote through the tee, everything on the disk among them, and no write can follow; the footer is among them if and only if no earlier write to the file was cut short |
| Delivery.ActiveToTheEnd | internal/recording/recorder.go:303-340 | from its mark on a recording is active until its file is closed, and with a sink until Close has returned and, if that was nil, the removal was tried |
| Delivery.NobodyBlocks | internal/recording/recorder.go:303-340 | the recorder, the sender and the removal can always go on, and any write may be cut short and any removal fail |
| Delivery.StuckLosesFooter | internal/recording/recorder.go:97-106 | a run in which a write to the file fails, the footer is never written and the file is removed |
| Records.EveryRemovalJustified | internal/recording/pending.go:28-61 | in every interleaving of recorders, retries and limits, and with any files left before, a recording is there or was removed once, and then: its live upload was acknowledged byte for byte; or the retry was acknowledged with exactly the content of the file, or the beginning of it if looked up early; or it was refused for good or its header could not be read; or it was past its age; or it was the oldest of files over 1 GiB together; or New gave it up |
| Records.LimitsDropShortest | internal/recording/retention.go:56-63 | in every interleaving a scan for the limits that is over has dropped exactly the shortest prefix, by time, of what it had kept |
| Records.LookExactly | internal/recording/retention.go:35-54 | the limits skip an active or unreadable file, drop one more than thirty days old next, and keep count of any other with its size |
| Coverage.RetryCoversAll | internal/recording/pending.go:39-60 | in every interleaving the retry loop stops early only at a file whose upload failed, and otherwise ends when it has looked at every recording of its snapshot |
| Coverage.TryIsSettled | internal/recording/pending.go:45-58 | a file the retry loop has begun stays its business until it was delivered or refused |
| Coverage.LimitsCoverAll | internal/recording/retention.go:35-63 | in every interleaving the limit on the total is applied only when every recording of the snapshot has been looked at |
| Coverage.LookCounts | internal/recording/retention.go:48-53 | a recording of at most thirty days counts to the end with the size and time it was seen with, an older one is dropped before the limit on the total is applied |
| Window.ActiveRecordingsSurvive | internal/recording/pending.go:45-58 | while a path is active only its own confirmed upload removes it, if no scan but that of New itself looks it up between creation and mark |
| Window.OnlyTheWindowIsUnsafe | internal/recording/recorder.go:116-174 | in any run a scan can remove an active recording exactly when it has it next and had looked it up between creation and mark |
| Window.EarlyLookMayRemove | internal/recording/pending.go:45-58 | from any state in which the retry loop is at a file, its next two steps may remove the file exactly if that upload has not failed, whatever became of the recording |
| Window.WindowLosesRecording | internal/recording/recorder.go:116-174 | a run in which the retry loop reads the header before it is written and removes the recording once it is active, with nothing acknowledged |
| Pending.OkMeansDelivered | internal/recording/pending.go:63-118 | whatever fails on the way, an upload that succeeds means that the backend acknowledged Meta, pieces of at most 32 KiB that are exactly the bytes of the file, and Final |
| Pending.SendBlocks | internal/recording/pending.go:93-110 | the loop performs a run of the upload steps and reaches the end of the file exactly when every send and the reads succeed |
| Pending.UploadFile | internal/recording/pending.go:63-118 | performs a run of the upload steps, succeeds exactly when everything did and then was acknowledged with exactly the bytes of the file; it refuses a file only for an unreadable header or on the word of the backend |
| Pending.UploadPending | internal/recording/pending.go:38-61 | uploads and removes, in order, exactly the inactive files before the first that is neither delivered nor refused; each one removed was delivered byte for byte, refused by the backend or unreadable |
| Pending.NotBusyPrefix | internal/recording/pending.go:45-58 | what was removed is a prefix of the inactive files of the snapshot |
| Retention.EnforceRetention | internal/recording/retention.go:22-65 | accounts for exactly the inactive recordings: drops those more than thirty days old, and of the others exactly the shortest prefix, by time, that brings the rest within 1 GiB |
| Retention.SelectWaiting | internal/recording/retention.go:32-54 | the scan selects exactly the waiting recordings and its running total is their size |
| Retention.SortByTime | internal/recording/retention.go:56-58 | yields the same entries in order of their time |
| Retention.DropOldest | internal/recording/retention.go:59-63 | drops the shortest prefix that brings the rest within the limit |
| Retention.OnlyWaitingDropped | internal/recording/retention.go:35-54 | a file is dropped for its age exactly if it is an inactive recording more than thirty days old, and dropped for space or kept exactly if it is a younger one |
| Retention.NewestSurvives | internal/recording/retention.go:59-63 | the newest recording is kept exactly when it alone is within the limit, so the empty file of New is |
| Access.Cache.Replace | internal/state/cache.go:69-99 | swaps the whole cache, the configuration included, and takes over exactly the accounts with a valid name |
| Access.SyncedPrincipals | internal/state/cache.go:35-41 | what a login finds listed after a sync: a principal counts for an account exactly if the name is valid and the last entry for it in the answer names the principal |
| Access.ValidUserIsPosix | internal/state/principal.go:8-16 | the valid account names are exactly those the regular expression matches, of at most 32 characters |
| Access.BuildPrincipals | internal/client/sync.go:48-51 | the loop yields the map that the next row describes |
| Access.GrantIsLast | internal/client/sync.go:48-51 | the map holds exactly the accounts the answer names, each with the principals of its last entry |
| Access.RetiredIsNamed | internal/sshd/auth.go:44-52 | the retired CAs are exactly the readable keys of the answer, each with the deadline of its last entry |
| Access.TrustedAfterSync | internal/sshd/auth.go:22-57 | after a sync a CA is trusted exactly if it is the active key of the answer or a retired one before the deadline of its last entry, and as before if the active key is garbled |
| Access.FirstMatchIsFirst | internal/sshd/auth.go:82-95 | the matched principal is the first allowed one that the certificate carries |
| Access.Server.SetTrust | internal/sshd/auth.go:32-57 | replaces both CA sets, trusts none for an empty key and keeps the last trust for an unreadable one |
| Access.Server.TrustedCAWire | internal/sshd/auth.go:22-30 | an active CA is trusted, any other exactly if it is retired and its deadline is still to come |
| Access.Server.PublicKeyCallback | internal/sshd/auth.go:59-122 | lets a login in exactly with a user certificate of a CA that is active or retired and before its deadline, which is sound for the first allowed principal it carries, and as that one; a host certificate and an empty principal never |
| Revocation.NoRevokedConnection | internal/sshd/server.go:209-248 | in every interleaving of logins and syncs, whenever no sync is under way every open connection past its own walk has its principal in the current list of its account, and its CA is active in the current trust or retired with a deadline that had not passed when the walk of the last sync began |
| Revocation.LastAnswerIsEnforced | internal/client/sync.go:48-56 | the same in terms of the backend's last answer: the last entry for the account, the active key, and the last entry of a retired key with its deadline |
| Revocation.SyncClosesExactly | internal/client/sync.go:48-56 | after a sync a live connection that was open is still open if and only if the answer grants its account its principal and has its CA as active, or as retired with a deadline still to come |
| Revocation.LoginAfterSync | internal/sshd/auth.go:59-122 | after a sync a login gets in if and only if it is with a sound user certificate of a CA of the answer, active or retired and before its deadline, and with a principal of the last entry for a valid account, as the first such principal |
| Revocation.NobodyBlocks | internal/sshd/server.go:209-248 | in every reachable state the sync, every connection and a walk can go on, and wait only for the end of a walk |
| Revocation.CheckedOpen | internal/sshd/server.go:209-221 | what the walk of the next two rows leaves open: listed for its account, and of a CA that is active or retired and before its deadline |
| Revocation.WalkIsDropRevoked | internal/sshd/server.go:210-221 | the walk taken step by step, in any order and without interference, closes exactly what the method closes |
| Revocation.LiveSet.DropRevoked | internal/sshd/server.go:209-221 | closes exactly the live connections whose access is gone and changes nothing else |
| Startup.SharedSource | internal/sshd/server.go:309-323 | two addresses share a counter exactly when they are equal, one is the IPv4 address mapped into the other, or both are IPv6 of the same /64 and not mapped |
| Startup.LoopbackAddresses | internal/sshd/server.go:309-313 | the loopback slots are for exactly 127.0.0.0/8, the same mapped into IPv6, and ::1 |
| Startup.SlotsAreConserved | internal/sshd/server.go:308-344 | in every interleaving the counters add up to the occupied slots and the releases between their two steps, no limit of 10, 10, 3 and 100 is exceeded, no counter is left at zero, and a connection is accepted exactly below 100 |
| Startup.BeginTakesFreeSlots | internal/sshd/server.go:308-335 | in every reachable state a peer gets its slots exactly if its ten and, unless from loopback, its three are not taken by peers that hold them |
| Startup.RelayedTakesNone | internal/sshd/server.go:287-293 | a relayed connection takes no slot |
| Startup.ReleaseNeverBlocks | internal/sshd/server.go:336-343 | whoever holds a slot can give it back, and the counter it lowers is at least one |
| Startup.StartupSlots.AcquireStartup | internal/sshd/server.go:308-335 | takes both limits of a remote source or the one of loopback, or refuses and changes nothing |
| Startup.StartupSlots.Uncounted | internal/sshd/server.go:336-343 | lowers the counter and removes it at zero |
| Forward.JoinInjective | internal/sshd/forward.go:175-185 | host and port can be told from the key, for every bind address a client may send |
| Forward.JoinSplits | internal/sshd/forward.go:175-185 | the key reads back as its host and port |
| Forward.GrantedAddress | internal/sshd/forward.go:124-185 | a granted forward is bound to 127.0.0.1, and with gateway ports on to the address asked for or, if empty, to 0.0.0.0, under the replied port |
| Forward.ForwardsAreLocal | internal/sshd/forward.go:175-185 | in every run in which gateway ports were never on, every forward is on 127.0.0.1 |
| Forward.ChannelSlotsConserved | internal/sshd/forward.go:52-61 | in every interleaving the slots in use are exactly the running handlers, accept loops, forwarded and agent connections and a forward being bound, within the limit, and each can be given back |
| Forward.NoListenerAfterClose | internal/sshd/forward.go:63-70 | after teardown no listener of the connection is open and none is ever bound again |
| Forward.OpenListenerHoldsSlot | internal/sshd/forward.go:188-198 | an open listener has its accept loop, and so its slot, exactly if no Accept on it failed in the run while it was open |
| Forward.ListenerWithoutSlot | internal/sshd/forward.go:188-194 | a run that leaves a listener open and in the table with no slot in use |
| Forward.CancelUndoesForward | internal/sshd/forward.go:124-185 | a granted forward, of port 0 too, is taken back by a cancel with its address and the replied port, exactly that listener and key, if the policy still means the same host, and otherwise stays (section 7.1 of RFC 4254) |
| Forward.CancelMissesForward | internal/sshd/forward.go:158-185 | a run in which gateway ports are turned on after the grant and the cancel leaves the listener open |
| Forward.ConnState.AcquireChannel | internal/sshd/forward.go:52-59 | takes a slot exactly when one is free |
| Forward.ConnState.TcpipForward | internal/sshd/forward.go:124-156 | grants a forward exactly when the policy, the port, a free address, one of 50 slots and Listen allow it, keeps it under that address and the port it got, and otherwise changes nothing |
| Forward.ConnState.CancelTCPIPForward | internal/sshd/forward.go:158-173 | removes the key and closes its listener, and says whether there was one |
| Forward.ConnState.CloseAll | internal/sshd/forward.go:63-70 | closes every listener of the table and gives the table up |
| Session.SetEnv | internal/sshd/session.go:234-243 | replaces the first entry of the name or appends one |
| Session.GetEnv | internal/sshd/session.go:225-232 | the value of the first entry of the name |
| Session.GetAfterSet | internal/sshd/session.go:225-243 | a variable reads back as it was set |
| Session.SetKeepsOther | internal/sshd/session.go:225-243 | setting one variable leaves another alone in every environment exactly when neither name, with its equals sign, begins the other |
| Session.NameWithEqualsSign | internal/sshd/session.go:198-232 | a client that may set LC_A=B thereby gives LC_A a value |
| Session.AtMostOneCommand | internal/sshd/session.go:122-147 | for every sequence of requests at most one starts a shell, command or subsystem (section 6.5 of RFC 4254), and after it no variable, terminal or agent is granted |
| Session.RequestsAnswered | internal/sshd/session.go:110-299 | every request of every sequence gets the answer that the requests before it, the certificate and the policy call for, and starts exactly the command, shell or subsystem it should |
| Session.ForceCommandHolds | internal/sshd/session.go:164-223 | under a force-command only that command ever runs and the environment holds at most TERM; without one the command is the client's own; client variables are always few and from the allowed ones |
| Session.SessionChannel.constructor | internal/sshd/session.go:87-98 | a new session has handled nothing |
| Session.SessionChannel.HandleCommand | internal/sshd/session.go:164-187 | accepts the first shell or exec, with the forced command if there is one |
| Session.SessionChannel.AcceptSubsystem | internal/sshd/session.go:245-258 | accepts only sftp, first, and never under a force-command |
| Session.SessionChannel.SetClientEnv | internal/sshd/session.go:198-214 | accepts an allowed variable before the command, within the bound, never under a force-command |
| Session.SessionChannel.HandlePty | internal/sshd/session.go:260-299 | accepts one terminal before the command and takes its TERM over |
| Session.SessionChannel.AgentRequest | internal/sshd/agent.go:21-44 | accepts agent forwarding before the command and opens the socket once |
| Signals.SignalsInOrder | internal/sshd/session.go:313-355 | in every interleaving the process got all accepted signals in order if it was started while the client was there and none otherwise (section 6.9 of RFC 4254), and it is killed exactly if the run started it and ended the client, in either order |
| Signals.Process.HandleSignal | internal/sshd/session.go:313-332 | delivers a known signal to a known process and otherwise keeps it |
| Signals.Process.SetProcess | internal/sshd/session.go:334-346 | kills the process if the client is gone, and otherwise delivers what was kept, in order |
| Signals.Process.KillProcess | internal/sshd/session.go:348-355 | kills the process if it is known and remembers the wish if not |
| Relay.ReadsConserveBytes | internal/client/relay.go:88-104 | for any buffer sizes and frames, empty ones too, the bytes read are a prefix of the data frames, and with what is pending and still to come exactly all of them |
| Relay.ReadYields | internal/client/relay.go:88-104 | a read hands out as much as fits of what is pending or of the next frame with data, and ends with the stream exactly at a Closed before that |
| Relay.EofAfterEverything | internal/client/relay.go:94-103 | the first end of stream is reported after every byte of the frames before it |
| Relay.FramesInOrder | internal/client/relay.go:106-132 | in every interleaving of writes and closes the frames are Ready, data, and at most one Closed, and nothing follows it |
| Relay.RelayConn.Read | internal/client/relay.go:88-104 | receives until there is data and hands out as much as fits |
| Relay.RelayConn.Write | internal/client/relay.go:106-119 | sends unless the connection is closed, and reports all bytes only if the send did not fail |
| Relay.RelayConn.CloseLocked | internal/client/relay.go:121-129 | sends Closed once |
| Watcher.NoLostWakeup | internal/client/sync.go:52-64 | in every interleaving, when the watcher waits and its last pass read another CA than the one in force, a token is there or a sync is about to send one |
| Watcher.NoSpuriousWakeup | internal/client/watcher.go:36-44 | the watcher is woken by a token at most once for every change of the CA |
| Watcher.PassSeesLatest | internal/client/watcher.go:22-44 | without a further change every pass from then on sees the CA in force |
| Watcher.Client.SyncCA | internal/client/sync.go:52-64 | a sync without interference performs its three steps |
| HostCerts.DeadlineInside | internal/hostcerts/certs.go:127-131 | the deadline is the middle of the validity |
| HostCerts.NeedsRenewalExactly | internal/hostcerts/certs.go:26-47 | a certificate is needed exactly if there is none, or it is of another CA or key, not for the target alone, not valid yet, or past half of its validity, which one without an end never is |
| HostCerts.NeedsRenewalWindow | internal/hostcerts/certs.go:27-37 | a certificate that fits needs renewal exactly outside the first half of its validity |
| HostCerts.NextRenewalTells | internal/hostcerts/certs.go:72-94 | the time returned is exactly when renewal is needed, now or at a deadline inside the validity, if and only if the certificate is valid already |
| HostCerts.WaitsOnForeignKey | internal/hostcerts/certs.go:72-94 | for a certificate in its first half the next renewal is its deadline, while renewal is needed now exactly when it is for another key |
| HostCerts.ForeignKeyWaits | internal/hostcerts/certs.go:72-94 | a certificate of the previous host key: renewal is due now and planned for half a day later |
| HostCerts.WatcherIsOnTime | internal/client/watcher.go:36-44 | the watcher looks again at the deadline or 30 seconds from now, whichever is later, and after a day for a certificate without an end, so no renewal is overdue by more than 30 seconds |
| HostCerts.Store.RenewHostCerts | internal/hostcerts/certs.go:49-70 | writes a certificate exactly when one is needed and one of the trusted CA came back, and otherwise leaves the file alone |

## Left out

- SSH transport, certificate signatures and the checks of the SSH library: a predicate of the certificate and the matched principal.
- gzip, JSON syntax, TPM and DPoP: byte streams, of which only the replacement of invalid UTF-8 is modelled.
- Revocation.NoRevokedConnection: leaves out the rejected status, after which the process exits, and a panic in the connection handler, which leaves the live set before the transport is closed.
- Recorder.PrintedTimeIsRealTime: is about exact real numbers, not the rounding of 64-bit floating point.
- HostCerts.NextRenewalTells: is about exact integers and certificates that end, with times and validities that fit Go's types; one that never ends is looked at again after a day.
- Delivery.UnlinkedMeansDelivered: is about the uploader as the sink, whose Write never fails, so the branch of the tee that drops a failing sink is not modelled.
- Window.ActiveRecordingsSurvive: needs that no other scan looks between creation and mark, without which it is false.
- Uploader.LiveUpload.SendLoop: lets others act between its receives, the finer interleavings are the state machine's.
- The second call of Close on an uploader, which returns the first answer, and the cancellation of a stalled stream: any send may fail at any time.
- Bits of the recorder that write nothing to the log: the flush timer, which is a write through the tee in Delivery, and the callback at the size limit.
- Session teardown and exit status, recording labels, the SFTP subsystem, PTY and process calls, the copies between a channel and a socket.
- Deadlines, keepalives, heartbeats and backoff: time passes only where a retired CA or a certificate is concerned.
- The cache file, enrollment, Clear and the loading of the cache: easy members. Any cache may be loaded at the start.
- Directories among the recordings and the order of Glob: a scan takes the files of its snapshot in any order.
- Audit events, policy defaults, signal names, file names and the command line: easy members.
