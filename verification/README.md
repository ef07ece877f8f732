# VoIP test suite: verified model

A Dafny model of the parts of the SIP interoperability suite that hold an algorithm or a
state machine, with proofs of what they promise.

| file | what it is about |
|---|---|
| `NotifyFraming.dfy` | one RTPProxy notification connection, a byte at a time; what "split at newlines" means, for every way of cutting up the stream |
| `NotifyDrain.dfy` | the patched OpenSIPS callback: nested loops over a fixed buffer, proved to do the same |
| `NotifyLifecycle.dfy` | descriptors, reactor registrations, notify blocks, saved tails and the list, from accept to release |
| `NotifyServer.dfy` | the listener as a whole: many connections, interleaved |
| `ObjectGraph.dfy`, `BackrefChain.dfy`, `ShowGraph.dfy` | breadth-first search over the reference graph; the shortest chain and the bounded drawing |
| `DotQuote.dfy` | the escaper for dot strings |
| `OnHoldProtocol.dfy`, `OnHoldParties.dfy` | the hold and resume script between Alice and Bob |
| `ReinviteVerdict.dfy` | the scenario that wants its re-INVITE answered and the one that wants it refused |
| `CallEvents.dfy` | who ended a call |
| `ExitCode.dfy` | the accounting behind both exit statuses, and Alice's schedule |
| `BobScenarios.dfy` | Bob's timers in the basic scenarios |
| `Sdp.dfy`, `PortOracle.dfy`, `MediaPick.dfy` | session bodies: filling in, checking, picking and rewriting |
| `Options.dfy`, `CredentialPool.dfy`, `RtpEndpoint.dfy` | option filtering, credentials in turn, one RTP endpoint |

`dafny verify dfyconfig.toml` checks everything.

Code that works by updating state is modelled by classes and loops.  Their methods are proved
against functions on values, and the theorems are about those functions and about runs of
them.  Callbacks of the SIP library, results of system calls, allocations and random draws
are inputs, quantified over.

## Where the code and what it says of itself differ

- `find_backref_chain` promises a chain ending in `obj`.  When `obj` is the `None` object, which
  also marks the end of the parent links, the chain stops one short
  (`BackrefChain.FindBackrefChain` says exactly when, `BackrefChain.NoneChainStopsShort` gives a
  graph).  A negative `max_depth` still looks at `obj` itself.
- `show_graph` draws one neighbour even for `too_many` below one, and labels an object once for
  every time it occurs in `objs` (`ShowGraph.LabelCount`).
- A tail that cannot be allocated is dropped, and the next command is then misframed; the framing
  is right exactly when that does not happen (`NotifyFraming.SplitIffNothingDropped`, with the
  run of `NotifyFraming.LostTailMisframes`).
- Both programs pass `rval` to `sys.exit`, and a process status has eight bits.  It can be trusted
  exactly up to 255 subtests of Alice's and 254 kept requests of Bob's (`ExitCode.AliceExit`,
  `ExitCode.BobExit`); from the next one on there are runs with hung subtests and status 0
  (`ExitCode.AliceWraps`, `ExitCode.BobWraps`), for Alice with `-4` given five times
  (`ExitCode.FiveTimesIPv4`).
- `reinvite` raises the origin version in a copy of the body; the hold script then puts the old
  body back, so the offer that resumes a call repeats the version of the offer that held it,
  with another body (`OnHoldProtocol.VersionsExactly`, `OnHoldProtocol.VersionRepeated`).
- The disconnect timer of the hold script polls until the counters are (3, 2).  After an answer to
  one of the first four offers fails the check they never are, and Alice polls without hanging up
  (`OnHoldProtocol.ByeExactly`, `OnHoldProtocol.NoByeAfterFailure`).
- `b_test3.connect` tests `connect_done` twice where the other scenarios also test
  `disconnect_done`; it alone can answer a call that is already down
  (`BobScenarios.SilentAfterDown`, `BobScenarios.FailureAfterDown`).
- `PortRange` accepts ranges for which no port can be generated: then the drawing loop never ends
  (`PortOracle.CanGenerateExactly`, `PortOracle.WidestRange`).
- The local address is written into the first audio section, the endpoint uses the first one with
  a known payload; they are the same section exactly under the condition of
  `MediaPick.PickedIsRewrittenExactly`; `MediaPick.MissedExample` is a body where they are not.
- `-n` splits at the first colon and `-N` at the last, so only `-N` takes an IPv6 host
  (`Options.EndpointsReadBack`).

## Model

| member | source | states |
|---|---|---|
| NotifyFraming.FeedSplits | install_depends/opensips/rtpproxy_notify_drain/3.2-3.3-3.5.diff:126-160 | From a fresh connection, for every stream: while the connection is open, the commands and the tail are the newline split of everything read; once it has closed, commands and tail are a prefix of the stream; no command is as long as BUF_LEN and none contains a newline |
| NotifyFraming.SplitUnique | install_depends/opensips/rtpproxy_notify_drain/3.2-3.3-3.5.diff:132-142 | "The lines of the stream and what follows the last newline" is unique, so the statement above leaves the code no freedom |
| NotifyFraming.FeedReloaded | install_depends/opensips/rtpproxy_notify_drain/3.2-3.3-3.5.diff:53-62 | Reloading a saved tail in front of new data is as good as never having stopped (the reload itself is among the elided context lines of the patch and assumed) |
| NotifyFraming.RunIsFeed | install_depends/opensips/rtpproxy_notify_drain/3.2-3.3-3.5.diff:77-175 | However the bytes are cut into reads and into callbacks ended by EAGAIN, and whatever the handlers answer, a run that loses no tail equals the byte-at-a-time machine on the whole stream |
| NotifyFraming.ChunkingIndependence | install_depends/opensips/rtpproxy_notify_drain/3.2-3.3-3.5.diff:77-175 | Two runs over the same bytes end in the same state: same commands, same tail, same reason to close |
| NotifyFraming.RunAccounts | install_depends/opensips/rtpproxy_notify_drain/3.2-3.3-3.5.diff:126-176 | Conservation: on an open connection, bytes delivered plus bytes held plus bytes lost with dropped tails is all bytes read |
| NotifyFraming.SplitIffNothingDropped | install_depends/opensips/rtpproxy_notify_drain/3.2-3.3-3.5.diff:168-175 | The framing of an open connection is right if and only if no nonempty tail ever met a failing allocation |
| NotifyFraming.LostTailMisframes | install_depends/opensips/rtpproxy_notify_drain/3.2-3.3-3.5.diff:168-175 | The failing case is real: three bytes, one failed allocation, another command |
| NotifyFraming.TooLargeExactly | install_depends/opensips/rtpproxy_notify_drain/3.2-3.3-3.5.diff:78-83 | While handlers succeed, the connection closes as too large if and only if some BUF_LEN consecutive bytes from a line start hold no newline |
| NotifyFraming.RunTooLargeExactly | install_depends/opensips/rtpproxy_notify_drain/3.2-3.3-3.5.diff:77-161 | The same over a whole run of callbacks: the cutting of the stream does not move the boundary |
| NotifyFraming.ShortLinesDelivered | install_depends/opensips/rtpproxy_notify_drain/3.2-3.3-3.5.diff:132-142 | Lines of up to BUF_LEN - 1 bytes are all delivered, in order and unchanged |
| NotifyFraming.RunClosed | install_depends/opensips/rtpproxy_notify_drain/3.2-3.3-3.5.diff:78-123 | A closed connection stays as it closed |
| NotifyFraming.CallbackEnds | install_depends/opensips/rtpproxy_notify_drain/3.2-3.3-3.5.diff:93-124 | Bytes decide first: too large or a refused command; otherwise end of file closes as PeerClosed, an error as ReadFailed, and would-block leaves the connection open |
| NotifyDrain.Socket.Read | install_depends/opensips/rtpproxy_notify_drain/3.2-3.3-3.5.diff:93-94 | read(): at most window bytes of what is pending, in order; zero bytes means end of file or an empty window |
| NotifyDrain.FindNewline | install_depends/opensips/rtpproxy_notify_drain/3.2-3.3-3.5.diff:135-136 | q_memchr: the first newline of the window, or none |
| NotifyDrain.MoveToFront | install_depends/opensips/rtpproxy_notify_drain/3.2-3.3-3.5.diff:156-160 | memmove of the tail to the front, overlapping or not |
| NotifyDrain.DeliverLines | install_depends/opensips/rtpproxy_notify_drain/3.2-3.3-3.5.diff:127-154 | The inner loop hands over exactly what the byte machine delivers for the buffer, and stops at the first failing handler call |
| NotifyDrain.Absorb | install_depends/opensips/rtpproxy_notify_drain/3.2-3.3-3.5.diff:126-160 | One read: buffer, tail and commands afterwards are those of the byte machine fed the new bytes |
| NotifyDrain.LoadTail | install_depends/opensips/rtpproxy_notify_drain/3.2-3.3-3.5.diff:53-62 | The saved tail is in the buffer again and the notify block no longer holds it |
| NotifyDrain.SaveTail | install_depends/opensips/rtpproxy_notify_drain/3.2-3.3-3.5.diff:168-176 | The tail is kept for the next callback exactly when there is a block and the allocation works |
| NotifyDrain.ReadAndAbsorb | install_depends/opensips/rtpproxy_notify_drain/3.2-3.3-3.5.diff:93-160 | One turn of the read loop; every read has a positive window, so a zero return is taken for end of file only at end of file |
| NotifyDrain.IoCallback | install_depends/opensips/rtpproxy_notify_drain/3.2-3.3-3.5.diff:77-179 | The whole callback over the fixed buffer refines one callback of the byte machine: status, commands and saved tail; only end of file counts as an orderly close, only a failed read as a failure |
| NotifyDrain.ServeConnection | install_depends/opensips/rtpproxy_notify_drain/3.4-3.6.diff:66-211 | Any sequence of callbacks on a connection ends where the run of the byte machine ends (the other patch carries the same loop) |
| NotifyLifecycle.AcceptConsistent | install_depends/opensips/rtpproxy_notify_drain/3.2-3.3-3.5.diff:198-239 | Accepting keeps the tables consistent, on success and on each of the four failures; the descriptor stays open iff the socket is non-blocking, the block was allocated, the node is known or the socket a unix one, and registration worked; all but unix sockets are listed |
| NotifyLifecycle.ReadableConsistent | install_depends/opensips/rtpproxy_notify_drain/3.2-3.3-3.5.diff:15-27 | A callback keeps the tables consistent, whether it keeps the connection or releases it |
| NotifyLifecycle.RunConsistent | install_depends/opensips/rtpproxy_notify_drain/3.2-3.3-3.5.diff:15-27 | In every run: open iff registered iff it has its own live notify block; every saved tail has one owner; the list holds the linked blocks, once each; with no connection left nothing is left |
| NotifyLifecycle.NothingLeft | install_depends/opensips/rtpproxy_notify_drain/3.2-3.3-3.5.diff:18-24 | No leak: consistent tables without an open descriptor are empty |
| NotifyLifecycle.OpenExactly | install_depends/opensips/rtpproxy_notify_drain/3.2-3.3-3.5.diff:198-239 | In every run a descriptor is open iff it was accepted under those conditions and not released since |
| NotifyLifecycle.Listener.IoNewCallback | install_depends/opensips/rtpproxy_notify_drain/3.2-3.3-3.5.diff:198-239 | rtpproxy_io_new_callback does the accepting step and every failure undoes what was done |
| NotifyLifecycle.Listener.Register | install_depends/opensips/rtpproxy_notify_drain/3.2-3.3-3.5.diff:198-239 | Success exactly when non-blocking mode, allocation, node lookup and registration all work; otherwise the tables are as before |
| NotifyLifecycle.Listener.FreeRtppNotify | install_depends/opensips/rtpproxy_notify_drain/3.2-3.3-3.5.diff:15-27 | free_rtpp_notify releases registration, list entry, tail, block and descriptor, each while it is held |
| NotifyLifecycle.Listener.IoCallback | install_depends/opensips/rtpproxy_notify_drain/3.2-3.3-3.5.diff:95-179 | The callback reloads and releases the saved tail, then releases everything or stores a new one; no release meets something not held |
| NotifyServer.ServerSound | install_depends/opensips/rtpproxy_notify_drain/3.2-3.3-3.5.diff:181-239 | In every interleaving of accepts and callbacks over any number of connections, each open connection is the byte machine run on its own wake-ups and has a saved tail in memory iff its rest is not empty |
| NotifyServer.EveryConnectionFramed | install_depends/opensips/rtpproxy_notify_drain/3.2-3.3-3.5.diff:77-175 | Connections do not disturb each other: each one is framed right iff none of its own tails was lost, and no saved tail reaches BUF_LEN |
| NotifyFraming.LastReadFramed | install_depends/opensips/rtpproxy_notify_drain/3.2-3.3-3.5.diff:93-175 | The callback that ends at end of file or on a read error: the connection was framed right iff no earlier tail was lost; the status is PeerClosed iff the reads ended at end of file and ReadFailed iff in an error |
| NotifyFraming.ClosingCallback | install_depends/opensips/rtpproxy_notify_drain/3.2-3.3-3.5.diff:77-161 | Without a lost tail, a connection that closes has handed on and holds a prefix of its bytes: all of them at end of file or on a read error, up to a line of BUF_LEN bytes on overflow, up to the refused command when a handler fails, and then that command and no earlier one was refused |
| NotifyServer.EveryEndedFramed | install_depends/opensips/rtpproxy_notify_drain/3.2-3.3-3.5.diff:77-175 | The same for every connection that has ended, in every interleaving with the others, with the handlers' answers and what ended the reads |
| NotifyServer.ServerReleasesAll | install_depends/opensips/rtpproxy_notify_drain/3.2-3.3-3.5.diff:15-27 | When the last connection is gone the process holds nothing: only the history of what ended is left |
| ObjectGraph.VisitKeeps | contrib/objgraph.py:170-188 | Each turn of the search keeps it a breadth-first tree: recorded objects hang off a root by links one level up, queued depths are in order and differ by at most one, done objects are expanded |
| ObjectGraph.VisitToCome | contrib/objgraph.py:170-188 | Each turn strictly decreases a measure, so the search ends |
| ObjectGraph.ChainRecorded | contrib/objgraph.py:180-188 | Completeness: what a chain within the finished depth reaches is recorded, no deeper than the chain is long |
| ObjectGraph.RecordedHasChain | contrib/objgraph.py:186-187 | Soundness: what is recorded is reached by a chain as long as it is deep |
| ObjectGraph.VisitedIffReached | contrib/objgraph.py:287-325 | A finished search has visited exactly what chains within the depth bound reach |
| ObjectGraph.DepthIsDistance | contrib/objgraph.py:319-321 | No chain from a root to a visited object is shorter than its recorded depth |
| ObjectGraph.FinishCounted | contrib/objgraph.py:281-321 | Each object is enqueued once, roots as often as they were given |
| BackrefChain.FindBackrefChain | contrib/objgraph.py:143-189 | The chain found starts at a wanted object, links usable referrers down to obj, is within the bound and no acceptable chain is shorter; None means there is none within the bound; a chain down to obj is what is returned, except when obj is the None object and is not itself wanted |
| BackrefChain.FollowParents | contrib/objgraph.py:173-177 | The rebuilding loop ends and yields the chain along the parent links, without the root when the root is the end marker |
| BackrefChain.Enqueue | contrib/objgraph.py:180-188 | The inner loop records exactly the new usable referrers, in order |
| BackrefChain.VisitOne | contrib/objgraph.py:170-188 | One turn of the loop is one visit of the breadth-first search with the depth bound as its cut-off |
| BackrefChain.NoShorterChain | contrib/objgraph.py:144-158 | While nothing finished is wanted, no acceptable chain is short enough to have been finished |
| BackrefChain.NoneChainStopsShort | contrib/objgraph.py:173-177 | The exception is real: two objects, one referring to None |
| BackrefChain.RootIsMissing | contrib/objgraph.py:174-176 | Why the None object is special: the chain shown for it does not end in it |
| ShowGraph.DrawGraph | contrib/objgraph.py:265-328 | The stream is the start marks and then, in visiting order, one block per visited object: its label, its first neighbours as edges in the right direction, its cut mark |
| ShowGraph.Expand | contrib/objgraph.py:305-325 | The inner loop draws the first max(1, too_many) usable neighbours and marks the node when there are that many |
| ShowGraph.VisitOne | contrib/objgraph.py:287-325 | One turn of the outer loop writes one block and is one visit of the breadth-first search over the cut neighbourhoods |
| ShowGraph.QueueObjects | contrib/objgraph.py:281-284 | Every start object is marked, given depth 0 and queued |
| ShowGraph.NodeBound | contrib/objgraph.py:281-325 | At most len(objs) * (1 + m + ... + m^max_depth) nodes are drawn, for m = max(1, too_many) |
| ShowGraph.GeometricAddsPower | contrib/objgraph.py:303-325 | The bound is the sum of the powers it is said to be |
| ShowGraph.DrawnIffReached | contrib/objgraph.py:287-325 | An object is drawn iff cut neighbourhoods reach it within the depth; no drawn object is deeper than the bound |
| ShowGraph.EdgesExactly | contrib/objgraph.py:303-325 | An edge is drawn iff it links an expanded object and one of its first max(1, too_many) usable neighbours: out of the object with swap_source_target, into it without |
| ShowGraph.MarksExactly | contrib/objgraph.py:281-325 | A node is marked as cut iff it is expanded and has that many usable neighbours, and as a start iff it was asked for |
| ShowGraph.LabelCount | contrib/objgraph.py:287-291 | Each drawn object has exactly one label statement, or as many as the times it was asked for |
| ShowGraph.EdgesClosed | contrib/objgraph.py:318-321 | Both ends of every drawn edge are drawn and labelled |
| DotQuote.QuoteIsEscape | contrib/objgraph.py:348-349 | The three replacements in a row are one pass of escaping, for every string |
| DotQuote.QuoteRoundTrip | contrib/objgraph.py:348-349 | A one-pass decoder gives the string back |
| DotQuote.QuoteInjective | contrib/objgraph.py:348-349 | Different strings are quoted differently |
| DotQuote.EscapeUnescape | contrib/objgraph.py:348-349 | What the decoder accepts is exactly what quoting produces |
| DotQuote.QuoteIsSafe | contrib/objgraph.py:348-349 | No raw newline is left, and an odd number of backslashes stands before every double quote |
| OnHoldProtocol.StepInv | test_cases/reinv_onhold.py:52-120 | Every step of Alice, Bob and the channel keeps the books: counters plus schedule plus armed timers are five, holds lead resumes by at most one, a timer is armed or a re-INVITE is out but not both, Bob's counters plus the offer under way are Alice's |
| OnHoldProtocol.RunInv | test_cases/reinv_onhold.py:52-120 | The invariant holds in every reachable state |
| OnHoldProtocol.OneInviteAtATime | test_cases/reinv_onhold.py:52-80 | Section 14.1 of RFC 3261: in every run a re-INVITE is sent only when no earlier one is in progress in either direction |
| OnHoldProtocol.BobSeesTheWholeScript | test_cases/reinv_onhold.py:112-120 | When Bob processes Alice's Bye he has counted three offers to hold and two to resume iff the two kinds of offer look different to him |
| OnHoldProtocol.RunAlike | test_cases/reinv_onhold.py:99-110 | If they do not, one of his counters stays at 0 in every run |
| OnHoldProtocol.ByeExactly | test_cases/reinv_onhold.py:85-91 | When all that is due has been taken and Bob has not hung up, Alice has sent her Bye or sends it at her next poll iff Bob's answers to the first four offers passed her check |
| OnHoldProtocol.NoByeAfterFailure | test_cases/reinv_onhold.py:69-91 | Once one of these answers has failed, or will, no Bye is ever sent |
| OnHoldProtocol.RunFate | test_cases/reinv_onhold.py:69-91 | In every run, what an early failed answer means for Alice's errors, counters and offers |
| OnHoldProtocol.ExhaustedMeansComplete | test_cases/reinv_onhold.py:85-91 | While the call is up, the schedule is used up with nothing pending iff the counters are (3, 2) |
| OnHoldProtocol.NeverStuck | test_cases/reinv_onhold.py:69-91 | Undisturbed and incomplete, a timer or a delivery is always due |
| OnHoldProtocol.EachStepCounts | test_cases/reinv_onhold.py:69-80 | Undisturbed, every such step decreases a measure of at most fifteen |
| OnHoldProtocol.ScriptEnds | test_cases/reinv_onhold.py:69-91 | Undisturbed, at most fifteen productive steps are taken from any moment on, however often the disconnect timer polls |
| OnHoldProtocol.EndlessIsUnfair | test_cases/reinv_onhold.py:85-91 | The polling goes on forever in one way only: from some moment on a due timer or delivery is always there and never taken; so it ends if what is due eventually happens |
| OnHoldProtocol.RunVersions | test_cases/reinv_onhold.py:52-80 | In every run the offers sent alternate between hold and resume, and their origin versions follow one formula |
| OnHoldProtocol.VersionsExactly | test_cases/reinv_onhold.py:55-66 | Section 8 of RFC 3264 wants a higher origin version for each changed body; here every offer changes the body, and the version rises exactly from a resumption to the next hold, if offered bodies are taken over: never from a hold to the resumption after it |
| OnHoldProtocol.VersionRepeated | test_cases/reinv_onhold.py:55-66 | The run in which two different bodies go out under one version |
| OnHoldProtocol.OffersToldApart | test_cases/reinv_onhold.py:57-63 | For every library test of "on hold" that covers null addresses: Bob tells the two kinds of offer apart iff there is a section and the last one does not start out on hold |
| OnHoldProtocol.HeldExactly | test_cases/reinv_onhold.py:57-63 | An offer to hold has as many sections as the body, each with 0.0.0.0 or :: by family, without sendrecv, and with every other attribute as often as before and in the same order |
| OnHoldParties.OnHoldAlice.ConnectedCallback | test_cases/reinvite.py:42-47 | connected() arms the disconnect and re-INVITE timers |
| OnHoldParties.OnHoldAlice.BaseReinvite | test_cases/reinvite.py:55-67 | reinvite() with alter_port off, as both callers have it: exactly when the call is up, a copy of the current body is offered, one version higher |
| OnHoldParties.OnHoldAlice.HoldBody | test_cases/reinv_onhold.py:57-63 | The copied body put on hold, as HeldExactly describes it |
| OnHoldParties.RemoveAll | test_cases/reinv_onhold.py:62-63 | The removal loop takes out all occurrences and keeps the rest in order |
| OnHoldParties.OnHoldAlice.FireReinvite | test_cases/reinv_onhold.py:52-67 | Putting on hold: the step of the protocol, the body offered is put on hold, lSDP restored |
| OnHoldParties.OnHoldAlice.FireOffHold | test_cases/reinv_onhold.py:78-80 | Resuming: the step of the protocol; it counts even when nothing is sent |
| OnHoldParties.OnHoldAlice.OnReinviteConnected | test_cases/reinv_onhold.py:69-76 | The next timer is armed from the schedule, of the kind the counters ask for |
| OnHoldParties.OnHoldAlice.RecvConnectEvent | test_cases/reinvite.py:72-93 | An answer, valid or not, is the step of the protocol |
| OnHoldParties.OnHoldAlice.RecvDisconnect | test_cases/reinvite.py:82-92 | A hang-up during a re-INVITE counts two errors and takes the call down |
| OnHoldParties.OnHoldAlice.FireDisconnect | test_cases/reinv_onhold.py:85-91 | A Bye is sent exactly when the counters are (3, 2); otherwise the timer is armed again |
| OnHoldParties.OnHoldBob.RecvUpdateEvent | test_cases/reinv_onhold.py:99-110 | Bob counts an offer by what the library says of its last section |
| OnHoldParties.Dialog.TakeStep | test_cases/reinv_onhold.py:52-120 | The two objects and the channel between them take the steps of the protocol |
| OnHoldParties.PlayScript | test_cases/reinv_onhold.py:52-120 | The objects played for any choices in any order: the invariant and the version formula hold, and after Alice's Bye Bob's check finds no error |
| OnHoldParties.OnHoldBob.CheckCounts | test_cases/reinv_onhold.py:112-119 | alldone() adds an error unless the counters are (3, 2) |
| ReinviteVerdict.AnswerWanted | test_cases/reinvite.py:72-100 | a_test_reinvite ends error-free with reinvite_done iff the first of Connect, Fail and Disconnect is a Connect with a good body and no event carries a bad body |
| ReinviteVerdict.RefusalWanted | test_cases/reinv_fail.py:39-49 | a_test_reinv_fail does iff the first event other than a Ring is a Fail or a Disconnect and no event carries a bad body |
| ReinviteVerdict.OppositeVerdicts | test_cases/reinv_fail.py:39-49 | No sequence of events satisfies both |
| ReinviteVerdict.VerdictExactly | test_cases/reinvite.py:119-123 | rval is 0 iff, from the flags at the start and the events alone, the call rings, had connected and is ended by Alice or the callee, and the re-INVITE meets the wanted fate |
| ReinviteVerdict.FlagsExactly | test_cases/t1.py:295-333 | Which events set the ringing and the disconnected flag, and that none sets the connected one |
| ReinviteVerdict.ErrorsExactly | test_cases/reinvite.py:72-100 | How many errors and updates any sequence of events counts in either scenario |
| ReinviteVerdict.NeverBothZero | test_cases/t1.py:273-285 | The two scenarios never both report 0 for the same events |
| ReinviteVerdict.AliceSubtest.BaseRecvEvent | test_cases/t1.py:295-310 | Ringing is noted; a bad body counts an error and raises, a missing one raises without counting |
| ReinviteVerdict.AliceSubtest.RecvReinviteEvent | test_cases/reinvite.py:72-93 | The handler is the step function the theorems are about |
| ReinviteVerdict.AliceSubtest.RecvEvent | test_cases/reinv_fail.py:39-49 | The same with the refusal scenario's override |
| ReinviteVerdict.AliceSubtest.Disconnected | test_cases/t1.py:331-333 | The call counts as down for origins switch and callee |
| ReinviteVerdict.AliceSubtest.Alldone | test_cases/reinvite.py:119-123 | The errors added at the end and the resulting rval |
| ReinviteVerdict.PlayOut | test_cases/reinvite.py:72-123 | The object fed any events and callbacks and then finished: rval is 0 iff it may fail anyway or the starting flags and the events are those of VerdictExactly, and 1 otherwise |
| ExitCode.StepConserved | lib/testcore_base.py:63-69 | Alice: rval = running + failed; Bob: one more until his timeout; kept by every completion, request and timeout |
| ExitCode.RunConserved | lib/bob_testcore.py:106-163 | The same over every interleaving |
| ExitCode.ExitZeroExactly | lib/bob_testcore.py:160-163 | At loop exit rval is 0 iff nothing is running and every subtest that reported done reported 0 |
| ExitCode.StopsExactly | lib/alice_testcore.py:118-120 | The loop stops at the timeout, and Alice's also as soon as the last of her subtests is done; Bob's only at the timeout |
| ExitCode.SucceedsExactly | lib/testcore_base.py:63-69 | From any moment on: nothing left running and nothing failed at the end iff the events report 0 for all that runs and all that is kept later |
| ExitCode.AliceRvalZero | lib/alice_testcore.py:111-120 | Read off the events: Alice's rval ends as 0 iff the first report of every scheduled subtest is a 0 and comes before the timeout |
| ExitCode.AliceExit | alice_main.py:101-104 | Of rval the process status keeps eight bits: it is 0 iff every subtest reported 0, for all runs of n subtests, iff n is at most 255 |
| ExitCode.ScheduledExit | lib/alice_testcore.py:90-115 | For every schedule: its size, and that the status can be believed iff that is at most 255 |
| ExitCode.AllTestsScheduled | lib/alice_testcore.py:63-107 | With 26 tests in both modes: iff at most four address types are given |
| ExitCode.FiveTimesIPv4 | alice_main.py:76-79 | With -4 given five times: 260 subtests, and a run with 256 of them hung and status 0 |
| ExitCode.AliceWraps | alice_main.py:101-104 | For every n from 256 on, a run that ends with 256 subtests hung and status 0 |
| ExitCode.BobRvalZero | lib/bob_testcore.py:138-163 | Read off the events: Bob's rval is 0 after his timeout iff every request he admitted and did not challenge led to a subtest whose first report before the timeout is a 0 |
| ExitCode.BobExit | bob_main.py:86-87 | His process status is 0 iff that is so, for all runs with k such requests, iff k is at most 254 (or he has no tests at all) |
| ExitCode.BobWraps | bob_main.py:86-87 | For every k from 255 on, and whatever the outcome of the requests, a run that ends with 255 subtests hung and status 0 |
| ExitCode.StatusZeroExactly | bob_main.py:86-87 | Both sides, without any guard: the status is 0 iff nothing runs or failed, or what is counted is a multiple of 256 |
| ExitCode.RunProgram | alice_main.py:97-104 | The program as objects, for any events: when it stops, that its status is 0 exactly then, and, for at most 255 subtests of Alice's or 254 kept requests of Bob's, iff the events report 0 for all of them |
| ExitCode.BobKeepsAll | lib/bob_testcore.py:138-157 | No kept subtest is lost: each is running or has reported once |
| ExitCode.AliceKeepsAll | lib/testcore_base.py:63-69 | The same for Alice's schedule |
| ExitCode.RefusedIsCounted | lib/bob_testcore.py:155-157 | A subtest left behind by a 403 keeps rval from being 0, whatever follows, and the exit status too while requests and rval stay within 255 |
| ExitCode.Schedule | lib/alice_testcore.py:90-107 | The nested loops schedule the product of address types (a single one twice), selected tests and modes; their number is that product, and each configuration is there as often as it was asked for |
| ExitCode.ScheduledOften | lib/alice_testcore.py:90-107 | How often a configuration is scheduled: by its address type (twice for a single one), its test if selected, and its mode |
| ExitCode.TestCore.constructor | lib/alice_testcore.py:109-116 | The state both programs start their loops with |
| ExitCode.TestCore.RemoveRunning | lib/testcore_base.py:64 | list.remove takes out the first occurrence |
| ExitCode.TestCore.SubtestDoneCallback | lib/testcore_base.py:63-69 | A completion is the accounting step; it raises iff the subtest is not in the list |
| ExitCode.TestCore.TimeoutCallback | lib/bob_testcore.py:160-163 | The timeout is the accounting step |
| ExitCode.TestCore.RecvRequestCallback | lib/bob_testcore.py:106-158 | Which response each request gets and what it does to the books; a challenge undoes the admission |
| BobScenarios.StepInv | test_cases/t1.py:441-481 | Each timer or callback keeps: at most one armed timer, at most one final answer, connect_done only after ring_done; each firing decreases the rank |
| BobScenarios.RunInv | test_cases/t1.py:441-481 | The same in every interleaving, and at most three timers ever fire |
| BobScenarios.SendsByScript | test_cases/t5.py:40-46 | In every interleaving Bob sends a beginning of the script of his scenario (180, 200, Bye; 183, 200, Bye; 180, 501; 502; 183, 503), one message per timer fired while nobody has ended the call |
| BobScenarios.DownExactly | test_cases/t1.py:487-489 | The call is down for Bob iff he or the caller ended it |
| BobScenarios.SilentAfterDown | test_cases/t3.py:44-50 | After the call is down nothing is sent iff it is not scenario 3 firing its connect timer |
| BobScenarios.FailureAfterDown | test_cases/t3.py:44-50 | The run in which the duplicated guard lets a failure out after the call is down |
| BobScenarios.BobSubtest.RingHandler | test_cases/t4.py:40-47 | The ring handlers of the scenarios |
| BobScenarios.BobSubtest.ConnectHandler | test_cases/t5.py:40-46 | The connect handlers of the scenarios |
| BobScenarios.BobSubtest.DisconnectHandler | test_cases/t1.py:477-481 | A Bye unless the call is down |
| BobScenarios.BobSubtest.Disconnected | test_cases/t1.py:487-489 | The call counts as down for origins switch and caller |
| BobScenarios.BobSubtest.Fire | test_cases/t1.py:433-470 | The event loop fires an armed timer once |
| BobScenarios.PlayOn | test_cases/t1.py:441-489 | The object played on from any moment: one final answer at most, every firing lowers the rank; from a call already down nothing is sent, except the failure of scenario 3, exactly if its armed connect timer fires |
| PortOracle.GenNotInRange | lib/PortRange.py:16-23 | A returned port is even, within 1024 to 65530, not 22222 and outside the range; it is the first draw that suits, and no result means none does |
| PortOracle.CandidateBounds | lib/PortRange.py:18 | Every draw gives an even port from 2 to 65530 |
| PortOracle.DrawFor | lib/PortRange.py:16-23 | Every port allowed by that description can be drawn |
| PortOracle.CanGenerateExactly | lib/PortRange.py:10-23 | The drawing loop can end iff the range does not cover 1024 to 65530 |
| PortOracle.WidestRange | lib/PortRange.py:13-23 | The range of all ports is accepted and no draw suits it |
| PortOracle.FillHostPort | lib/test_config.py:18-27 | A new origin, and the session name unless signalling only; relayed sections get a generated port and the new address, all others stay as they are; without a connection line it raises with the port already set |
| PortOracle.CheckHostPort | lib/test_config.py:79-93 | The verdict is that of the first section that is not all good |
| PortOracle.AcceptedExactly | lib/test_config.py:79-93 | A body is accepted iff every relayed section is in range and at an expected address |
| PortOracle.RejectedExactly | lib/test_config.py:79-93 | What a rejection says is what is wrong with the first section that is not all good |
| Sdp.RelayedExactly | lib/test_config.py:24-25 | The sections checked and filled are those over udp, udptl or rtp/avp, in any case of letters |
| Sdp.RtpAudioExactly | test_cases/t1.py:120-123 | The sections an endpoint looks at are audio over udp or rtp/avp, in any case of letters |
| PortOracle.UntouchedNeverPasses | lib/test_config.py:79-93 | A body as generated passes iff it has nothing to relay, wildcard or not |
| PortOracle.PreparedNeverPasses | test_cases/t1.py:189-226 | The same for the body with RTP, which has its endpoint's address and generated port written into it before it is sent |
| PortOracle.PartialRewriteNeverPasses | lib/test_config.py:84-85 | One relayed section with its generated port left alone is enough to be rejected, in a body prepared either way |
| MediaPick.PickMedia | test_cases/t1.py:117-142 | The loop picks the first audio section over udp or rtp/avp that offers payload 0 or 9 |
| MediaPick.FindPtime | test_cases/t1.py:131-139 | The first ptime attribute with a value decides; 20 without one or when it is no number |
| MediaPick.Ptime | test_cases/t1.py:131-139 | The packet time is at least 10 |
| MediaPick.PtimeExactly | test_cases/t1.py:131-139 | The packet time is 20 without a valued ptime attribute; with one, the first decides: its number, but at least 10, or 20 if it is none |
| MediaPick.PickExactly | test_cases/t1.py:117-142 | What is picked, of which section, with G.711 for payload 0 and G.722 for 9 only |
| MediaPick.ApplyLocalMedia | test_cases/t1.py:215-226 | The loop rewrites the first audio section over udp or rtp/avp |
| MediaPick.ApplyFrame | test_cases/t1.py:222-225 | Nothing but port and connection line of that section changes |
| MediaPick.ApplyExactly | test_cases/t1.py:215-226 | Port, address and family of the rewritten section, with or without an address and a connection line |
| MediaPick.PickedIsRewrittenExactly | test_cases/t1.py:120-130 | The section picked is the one rewritten iff the first audio section offers payload 0 or 9 |
| MediaPick.RewriteRoundTrip | test_cases/t1.py:215-226 | Then, given a connection line, picking yields what was written, codec and packet time unchanged |
| MediaPick.RewriteMissed | test_cases/t1.py:215-226 | Otherwise picking does not see the rewrite at all |
| MediaPick.PeerPicks | test_cases/t1.py:215-226 | Both cases for a body with media: what is picked after the rewrite is the local address or what was there before |
| MediaPick.MissedExample | test_cases/t1.py:215-226 | A two-section body of the second kind |
| Options.TestConfig.TakeCommonOpts | lib/test_config.py:166-175 | The delete-or-advance loop leaves the other options in order and applies the common ones; a malformed argument stops it there |
| Options.TestConfig.ParseCommonOpt | lib/test_config.py:132-164 | The chain of tests computes the parsed option, which RangeExactly, EndpointsReadBack and NamesReadBack characterise; a malformed argument raises without effect |
| Options.LastOccurrenceWins | lib/test_config.py:132-164 | A setting has the value of the last option naming it |
| Options.UnnamedKept | lib/test_config.py:132-164 | A setting no option names is untouched |
| Options.UncommonExactly | lib/test_config.py:170-175 | What is left has exactly the occurrences that are not common |
| Options.EndpointsReadBack | lib/test_config.py:148-157 | host:port is read back by -n iff the host has no colon, and by -N for every host |
| Options.RangeExactly | lib/test_config.py:133-135 | -p is accepted iff the stripped argument is two numbers around its first dash that make a valid port range, and sets that range |
| Options.OneValueExactly | lib/test_config.py:132-164 | Which options are common, and what -l, -P, -T and -w set |
| Options.NamesReadBack | lib/test_config.py:161-163 | -m sets names without commas that, joined by commas, are the argument |
| CredentialPool.Pool.Take | scenarios/UAS/alice_cfg.py:8-10 | The last entry is taken and put in front |
| CredentialPool.Pool.TakeMany | lib/test_config.py:117-118 | The k-th credential object gets entry n-1-(k mod n); the list stays a rotation of itself; if the entries are distinct, no entry is handed out two times more often than another |
| CredentialPool.UsesExactly | scenarios/UAS/alice_cfg.py:8-10 | After k objects entry i has been used (k + i) div n times |
| CredentialPool.RoundRobinFair | scenarios/UAS/alice_cfg.py:8-10 | At every moment the use counts of any two entries differ by at most one |
| CredentialPool.TakenUses | lib/test_config.py:117-118 | In what was handed out, each entry occurs as often as its position came up |
| CredentialPool.HandedOutFairly | lib/test_config.py:117-118 | Fairness of the sequence handed out |
| RtpEndpoint.OneEndpoint | test_cases/t1.py:178-184 | Before the shutdown there is at most one endpoint, and one iff media was found |
| RtpEndpoint.FramesConserved | test_cases/t1.py:148-163 | Frames generated are accepted chunks times the chunk size, failed sends notwithstanding |
| RtpEndpoint.ErrorExactly | test_cases/t1.py:148-163 | Before the shutdown there is an error iff a send has failed |
| RtpEndpoint.ChunkFrames | test_cases/t1.py:151-152 | A chunk holds sampling rate times duration in whole frames, but at least one |
| RtpEndpoint.AfterShutdown | test_cases/t1.py:228-249 | After it nothing fed counts, it leaves an error iff it fails with an endpoint held, and a second endpoint appears iff media is started again |
| RtpEndpoint.UpdatesCounted | test_cases/t1.py:165-187 | Every start updates the one endpoint, except a start that makes it |
| RtpEndpoint.LastStartRecorded | test_cases/t1.py:185-187 | Target, codec and packet time are those of the last media started |
| RtpEndpoint.NothingIfDisabled | test_cases/t1.py:165-192 | With signalling only nothing is ever made or shut down |
| RtpEndpoint.RtpSide.PrepareLocal | test_cases/t1.py:189-213 | It fails iff no media is found or the address is no address of one host; otherwise the body names the held endpoint to whoever picks media from it, exactly when the first audio section offers a known payload |
| RtpEndpoint.RtpSide.StartOrUpdateMedia | test_cases/t1.py:165-187 | Starting makes an endpoint or updates the one held, and records its media |
| RtpEndpoint.RtpSide.FeedOnce | test_cases/t1.py:148-163 | Feeding counts an accepted chunk only |
| RtpEndpoint.RtpSide.ShutdownStats | test_cases/t1.py:228-249 | The endpoint is given up once; the statistics are those of its writer and session, zero when a counter cannot be read; a second call raises |
| RtpEndpoint.PlayOut | test_cases/t1.py:99-249 | The object through any operations before the shutdown: one endpoint iff media was found, every later start an update, frames conserved |

## Left out

- NotifyDrain.IoCallback: the lines that reload `notify->remaining` are elided in the patch; they are taken to copy the tail into the buffer, free it and clear the field.
- NotifyDrain.Socket.Read: retries after EINTR and the text of errors are not modelled; a read gives bytes, would-block, end of file or an error.
- NotifyDrain.Handler.Handle: what `notification_handler` does with a command; its result is an arbitrary function of the call's position.
- NotifyLifecycle.Listener.IoNewCallback: starts with the descriptor `accept()` returned; a failing `accept()` changes nothing.
- NotifyLifecycle: the framing loop these patches replace, `fcntl`, logging, `shutdown()` before `close()`.
- PortOracle.GenNotInRange: takes its random draws from a list and gives up when it ends; that the drawing ends with probability one is not stated, only when it can.
- PortOracle.FillHostPort: the origin line `SdpOrigin` makes up and the addresses `genIP` draws are parameters.
- ObjectGraph: the heap does not change during a search, and the set of ignored ids is fixed; `gc`, frames, object ids and the viewer are outside.
- ShowGraph.DrawGraph: colours, label texts and `edge_label` are not modelled; nodes are told apart by object, although all weak references share one dot identifier.
- OnHoldProtocol: no clock is assumed, so the constraint on the sum of the schedule is not used; losing or reordering messages is outside, as is a refused re-INVITE, which Bob's script never sends.
- OnHoldProtocol.BobSeesTheWholeScript: says nothing of calls Bob's own disconnect timer ended first; his counters may then be anything up to (3, 2).
- OnHoldParties.OnHoldAlice.FireDisconnect: the SIP library is taken to call `disconnected` as soon as a Bye is handed to it; answers and offers that reach a party whose call is down are dropped.
- OnHoldParties: which sections the SDP library takes for on hold is a parameter; the theorems that need it ask only that null addresses are among them. Whether the library takes over an offered body as its own is a parameter too.
- OnHoldParties.OnHoldAlice.BaseReinvite: the new ports of `alter_port = True`, which the hold script never asks for.
- ReinviteVerdict: `process_reinvite`, the answer to an update, and its delay; it changes no flag.
- ExitCode.RunProgram: a dry run, which never starts the loop; exceptions that escape the loop.
- ExitCode: subtests that report done while Alice is still scheduling; the event loop has not started then.
- BobScenarios: intervals, the media answer that `connect` and the early-media `ring` build, and the scenarios from t6 on.
- Options: `strip`, `int`, `float` and the readings of the clock are parameters; the loading of the scenario files after the loop is left out.
- `typestats`, `count`, `gradient` and the other reporting helpers of objgraph: they count live objects or choose colours and take no part in the searches.
- MediaPick: `lower()` is modelled for ASCII letters only.
- RtpEndpoint: what the endpoint does with its chunks, which port its allocator gives it, its received frames, and exceptions out of making or updating it; the feeding thread takes its turns between the other operations.
- The SIP user agent, transactions, authentication digests, audio content, shell scripts, proxy configurations and expected outputs.
