# Session runtime: verification model

The runtime keeps pseudo-terminal sessions alive inside a container and lets one
client at a time attach to each over a WebSocket. This project models its byte
scanners, its output and input paths, its session protocol, and the bounded machines
around them, and proves what they promise over every input and every run.

- `Bytes`, `ControlStrings`, `Kitty`, `CapProxy`, `Chunks`, `Answers`, `Keyboard`, `Emulator`: the proxy that
  finds capability queries in the child's output (control sequences and control strings
  as in sections 5.4 and 5.6 of ECMA-48), answers them, removes them, and follows the
  client's kitty keyboard state.
- `TermFilter`, `Mirror`: the filter that deletes terminal replies from the client's
  input, and the proof that it deletes everything the proxy can say.
- `RingBuf`, `Outbound`, `Delivery`: the scrollback window, the lossy outbound queue,
  and the offset a client can compute from what reaches it.
- `WriterFence`, `Takeover`: the connection fence between clients and the child, and the
  takeover budget.
- `Manager`, `Tokens`, `Overlaps`, `ManagerObjects`: names, capacity and generations; the
  attach tokens against them; what overlapping callers do; and the objects. A session has
  an identity, a caller holds the session it looked up, and the map, the claims and the
  tokens go by name.
- `Lifetime`: the two lifetimes of a session, their warnings, and half-open connections.
- `ToolsMux`, `ToolsHub`: the request multiplexer of an attached Mac, and which Mac a
  session has.
- `Tracking`, `AdminAuth`, `UpgradeLimiter`: bounded per-source failure records that
  never lose an active block.
- `KillBudget`, `KillDomain`: the tracking budget and the teardown ladder.

Each state machine is a value with a step function; the theorems are about every run of
it. The object the runtime keeps is a class beside it, and each of its methods is proved
to move the state by the machine's own steps. Tokens, secrets and keys are numbers never
issued twice, which stands for hashes that do not collide. Clocks are numbers passed in.

## What the proofs show about the code

- A control-sequence query split over two chunks, wherever it is split, is kept whole and
  never answered (`Chunks.CutQueryIsLost`); chunks compose when nothing is cut, and every
  chunk that ends inside a recognised sequence is cut (`Chunks.PrefixIsCut`). Stripping
  twice can strip more than stripping once (`Chunks.StripNotIdempotent`).
- The proxy's keyboard model is that of an emulator fed the stream from the place the
  last attach of any client started afresh at. The attached client's emulator agrees with
  it, whatever the stream, exactly if it started at that place
  (`Emulator.ProxyMirrorsEmulator`, `Emulator.StartsAlikeExactly`), and it does from its
  own fresh attach on as long as no other client starts afresh, it comes back at its own
  cursor, and its queue drops nothing (`Emulator.StaysInLine`). A client that comes back at
  its own cursor after another client has attached without one is fed state the proxy has
  forgotten (`Emulator.ReturnAfterAnotherDisagrees`), also with cursor zero and nothing
  evicted; the comments at runtime/src/session.rs:1511-1513 and
  runtime/src/capproxy.rs:33-35 say otherwise. What the queue drops in the middle of a
  stream takes the client out of line too (`Emulator.OutputLinesUpExactly`,
  `Emulator.OverflowDisagrees`); the comment at runtime/src/capproxy.rs:37-43 names that
  case as not mirrored.
- A client that attaches with a cursor past the end of the stream, one kept from an
  earlier generation, gets a gap from which its offset does not add up; every other
  cursor does (`Delivery.AccountedExactlyInsideStream`).
- Removing a session from the map goes by name and comes after the session was looked up
  and torn down. A kill that a restart overtakes removes the name of the restarted, running
  session (`Overlaps.LateKillOrphans`). Such a session runs without a name and is no longer
  counted, so more sessions can run than the limit allows: exactly when one runs without a
  name (`Manager.CapPassedExactlyWithOrphans`).
- A renewal asks whether its session is alive before it takes the lock and mints after the
  lock is gone. Two renewals can leave the older one's token stored
  (`Overlaps.CrossedRenewalsBreak`), and a renewal leaves a token for a dead session if a
  kill comes between its two halves (`Overlaps.KilledRenewalBreaks`) or between its question
  and its first half (`Overlaps.DeadRenewalBreaks`). Stored tokens agree with generations
  exactly in the histories without such steps (`Tokens.AgreementExactly`). It is enough
  that a name is claimed only when nobody holds a session of that name any more, that
  nobody renews or tears down a session between a renewal's two halves, and that a renewal
  finds its session alive when it moves the generation (`Tokens.PatientRunsAgree`).
- An attach that asked before a session ended is accepted by the ended session, and only
  such an attach is (`Takeover.DeadOwnedExactly`).
- The timer decides under a session's lock and acts after it is gone. An idle warning is
  decided while nobody is attached; it reaches a client, and an idle end tears down an
  attached session, exactly when a client attaches between the two and stays until the act
  (`Lifetime.IdleActHitsExactly`, with both inputs in `Lifetime.AttachBetween`). It is
  given once in the life of a session (`Lifetime.SecondIdleEndUnwarned`); the comment at
  runtime/src/session.rs:1788-1789 promises a warning before every forced end. Before the
  absolute deadline one is given exactly if the timer looks in time
  (`Lifetime.AbsoluteCapHolds`).
- The admin throttle looks and counts under two separate locks. A running block is moved,
  and two counted failures of a source come closer than the delay armed by the first,
  exactly if another attempt of that source had been let through before and is still to be
  counted (`AdminAuth.BlockHoldsExactly`, `AdminAuth.SpacedExactly`). A rejected attempt
  never moves it.
- A closed tools socket whose waiters were released stays empty exactly when no call stands
  between its closed check and its entry (`ToolsMux.ClosedStaysEmptyExactly`).
- A tracked process that is not the runtime's own child is reported as a survivor once
  it is a zombie (`KillDomain.ForeignZombieIsReported`).

## Model

| member | source | states |
|---|---|---|
| ControlStrings.StringSequence | runtime/src/capproxy.rs:469-484 | finds the first BEL or ESC-backslash within the scan bound and the body before it, or nothing; the loop meets the specification both scanners share |
| ControlStrings.TerminatedIsStable | runtime/src/capproxy.rs:469-484 | a terminated control string is recognised from its own bytes alone, whatever follows it |
| ControlStrings.DecidedIsStable | runtime/src/capproxy.rs:469-484 | once a control string is decided, terminated or over the bound, appended bytes change neither the finding nor the decision |
| Kitty.ReachableModelsAreValid | runtime/src/capproxy.rs:387-434 | from a fresh model, any run of pushes, sets, pops, switches and resets leaves at most 16 saved entries per screen and only the five known flag bits |
| Kitty.OtherScreenUntouched | runtime/src/capproxy.rs:383-424 | keyboard operations never touch the screen that is not active |
| Kitty.SetIsFlagwise | runtime/src/capproxy.rs:398-407 | flag by flag, mode 1 assigns, 2 adds, 3 removes, any other mode leaves all; no mode touches the stack |
| Kitty.PushesKeepNewest | runtime/src/capproxy.rs:387-394 | after any pushes the bounded stack holds the newest 16 of everything saved |
| Kitty.PopUndoesPushes | runtime/src/capproxy.rs:387-424 | n pushes and a pop of n restore the flags whenever n is at most 16 and clear the screen otherwise; the whole screen comes back exactly when nothing fell off the bottom |
| Kitty.BoundedIsWindow | runtime/src/capproxy.rs:387-424 | along any run whose pops stay within what was retained, the bounded stack is the newest part of an unbounded one and the flags agree |
| Kitty.ShallowRunsAgree | runtime/src/capproxy.rs:387-424 | while the depth stays within 16 the bounded and the unbounded stack are equal |
| Kitty.ModelRunsOnActive | runtime/src/capproxy.rs:383-424 | between switches any run of operations takes the active screen through exactly the bounded-stack run and leaves the other alone |
| CapProxy.ParamListMeaning | runtime/src/capproxy.rs:445-465 | a list is refused exactly past 24 groups; otherwise each group yields the smaller of its decimal value and 65535, in order; the groups and their separators are the whole list |
| CapProxy.GroupsAreDigits | runtime/src/capproxy.rs:450-465 | between its separators a parameter list has digits only, so no group can overflow or be misread |
| CapProxy.ValuesMatchGroups | runtime/src/capproxy.rs:450-465 | one value per separated group, empty groups included, in order |
| CapProxy.ParseParams | runtime/src/capproxy.rs:450-465 | the saturating digit loop computes the specified list and never leaves 16 bits |
| CapProxy.ParseDecimalLoop | runtime/src/capproxy.rs:489-501 | accepts exactly non-empty digit strings below 2^32 and returns their decimal value |
| CapProxy.HexDigits | runtime/src/capproxy.rs:585-600 | counts at most four hex digits and continues past the run, the byte that ended it and one slash |
| CapProxy.IsColourLoop | runtime/src/capproxy.rs:567-583 | the loop decides the colour grammar of the specification |
| CapProxy.ColoursAre | runtime/src/capproxy.rs:567-583 | on the bytes: a # specification is a colour exactly with 3, 6, 9 or 12 bytes behind it, an rgb: one exactly with a hex digit at the first place or at the second or third the walk comes to, and nothing else is |
| CapProxy.RefusedExactlyForSets | runtime/src/capproxy.rs:529-554 | a colour sequence is left to the client exactly when one of its groups sets a live slot |
| CapProxy.OscFaceColour | runtime/src/capproxy.rs:529-554 | the group loop yields one report per query group in slot order, or nothing at all when a group is a set |
| CapProxy.ClassifyPayload | runtime/src/capproxy.rs:507-527 | the colour base and its groups are split off the payload and answered, or the string is no query |
| CapProxy.ClassifyOscQuery | runtime/src/capproxy.rs:507-527 | a terminated control string is answered with its own terminator and consumed whole |
| CapProxy.ScanKeepsValid | runtime/src/capproxy.rs:171-206 | no chunk of output takes the keyboard model out of its bounds |
| CapProxy.PlainTextIsKept | runtime/src/capproxy.rs:171-180 | a chunk without ESC is kept byte for byte, with no answer and no effect |
| CapProxy.CapabilityProxy.Process | runtime/src/capproxy.rs:171-206 | kept output, answers, answer count and keyboard model are those of the recursive scan |
| CapProxy.CapabilityProxy.ScanChunk | runtime/src/capproxy.rs:177-206 | the index loop with its copied-up-to mark collects exactly the bytes the recursive scan keeps |
| CapProxy.CapabilityProxy.Resync | runtime/src/capproxy.rs:220-227 | the model becomes that of a new proxy which processed the replay; the answer count stays |
| CapProxy.CapabilityProxy.Inspect | runtime/src/capproxy.rs:234-251 | consumes, answers and moves the model as the meaning of the sequence at the head says |
| CapProxy.CapabilityProxy.InspectCsi | runtime/src/capproxy.rs:253-286 | parses marker, parameters and final byte within the bound, or recognises nothing |
| CapProxy.CapabilityProxy.DispatchCsi | runtime/src/capproxy.rs:290-354 | answers, or changes the model, as the dispatch of marker, parameters and final byte says |
| CapProxy.CapabilityProxy.KittyPush | runtime/src/capproxy.rs:387-394 | in place: saves the flags on the active screen, dropping the oldest of 16 |
| CapProxy.CapabilityProxy.KittySet | runtime/src/capproxy.rs:398-407 | in place: assigns, adds or removes the known flags on the active screen |
| CapProxy.CapabilityProxy.KittyPop | runtime/src/capproxy.rs:411-424 | in place, entry by entry: restores the flags saved that many pushes ago or clears the screen |
| CapProxy.CapabilityProxy.BufferModes | runtime/src/capproxy.rs:428-432 | switches screens exactly when one of modes 47, 1047 and 1049 is named |
| Answers.TableIsAnswered | runtime/src/capproxy.rs:300-381 | every query of an eleven-row table, however its numbers are padded and whatever follows, is removed and answered with the reply of its row |
| Answers.ChecksumIsAnswered | runtime/src/capproxy.rs:369-375 | the macro checksum query is answered with its memory id, saturated, or zero when there is none |
| Answers.KittyIsAnswered | runtime/src/capproxy.rs:322-327 | the keyboard query is answered with the flags of the active screen in decimal |
| Answers.OthersPassThrough | runtime/src/capproxy.rs:304-354 | every other complete control sequence, and every one of more than 24 groups, is kept byte for byte; the model moves exactly for push, set, pop and screen modes, by the given parameters |
| Answers.ColourIsAnswered | runtime/src/capproxy.rs:507-561 | a colour string with any padded code from 10 to 12, any groups and either terminator is kept whole exactly when a group sets a live slot, and otherwise removed and answered with the declared palette, one report per query group in its slot |
| Answers.OneGroupTold | runtime/src/capproxy.rs:529-561 | a colour command with one group: one that begins with a question mark is answered with the report of its slot, a colour is kept for the client, any other is taken out without an answer |
| Answers.PastTheCursor | runtime/src/capproxy.rs:529-561 | groups past the slot of the cursor neither set nor ask for anything |
| Answers.OtherOscPasses | runtime/src/capproxy.rs:486-527 | an operating-system command whose payload does not begin with a number from 10 to 12 and a semicolon is kept whole |
| Keyboard.PushIsSeen | runtime/src/capproxy.rs:387-394 | on the bytes: after a push the keyboard query is answered with the known ones of the pushed flags |
| Keyboard.SetIsSeen | runtime/src/capproxy.rs:396-407 | on the bytes: after a set the query is answered flag by flag as mode 1, also when none is given, 2, 3 or any other says |
| Keyboard.PopIsSeen | runtime/src/capproxy.rs:409-424 | on the bytes: after any pushes and one pop of their number, where no number and zero count as one, the query is answered with the flags from before the pushes, or zero when there were more than 16 |
| Keyboard.EmptyPopIsSeen | runtime/src/capproxy.rs:409-424 | on the bytes: a pop on an empty stack clears the screen |
| Keyboard.SwitchIsSeen | runtime/src/capproxy.rs:426-433 | on the bytes: modes 47, 1047 and 1049 select the screen whose flags are reported, other modes leave it, and neither screen changes |
| Keyboard.ResetIsSeen | runtime/src/capproxy.rs:242-248 | on the bytes: after a full reset the query is answered with zero and the model is a new one |
| Chunks.DecidedIsStable | runtime/src/capproxy.rs:234-286 | a decided inspection is unchanged by whatever bytes follow the deciding ones: meaning, reply and length |
| Chunks.RecognisedDecidesItself | runtime/src/capproxy.rs:234-286 | a recognised sequence is decided by exactly its own bytes |
| Chunks.ChunksCompose | runtime/src/capproxy.rs:171-206 | if the first chunk is not cut by its end, processing two chunks joined or in turn gives the same output, answers, count and keyboard model |
| Chunks.UncutComposes | runtime/src/capproxy.rs:171-206 | two chunks that are not cut make one that is not cut |
| Chunks.PrefixIsCut | runtime/src/capproxy.rs:234-286 | every proper beginning of a recognised sequence is undecided, so a chunk that ends in one is cut |
| Chunks.CutQueryIsLost | runtime/src/capproxy.rs:253-286 | every control-sequence query split at any point is kept whole and unanswered over two chunks, and removed and answered in one |
| Chunks.PiecesJoin | runtime/src/capproxy.rs:171-206 | kept and removed pieces partition the chunk |
| Chunks.RemovedAreWhole | runtime/src/capproxy.rs:171-206 | each removed piece is one complete sequence the proxy answers, decided by its own bytes |
| Chunks.ScanKeepsTheRest | runtime/src/capproxy.rs:171-206 | the kept pieces in order are the output, and the answer count is the number of removed pieces |
| Chunks.RecognisedIsSeparable | runtime/src/capproxy.rs:171-206 | a chunk in which every ESC opens a recognised sequence is one whose remains cannot join into new sequences |
| Chunks.StripPreservesModel | runtime/src/capproxy.rs:215-232 | observing the stripped output of such a chunk moves the keyboard model exactly as the chunk did, and finds nothing left to answer |
| Chunks.EmulatorFollows | runtime/src/capproxy.rs:215-232 | an emulator moved by the forwarded chunks alone ends in the model of the proxy |
| Chunks.ForwardIsForwarded | runtime/src/capproxy.rs:171-206 | all that is forwarded of separable chunks is separable and holds nothing to answer |
| Chunks.SuffixIsForwarded | runtime/src/capproxy.rs:171-206 | so is every suffix of it, wherever it is cut off |
| Chunks.FreshAttachAgrees | runtime/src/session.rs:1509-1525 | for any earlier separable chunks, any suffix of the forwarded stream as the replay and any later separable chunks, the resynchronised proxy equals an emulator fed the replay and everything forwarded since, which meets no query |
| Emulator.ReplayIsSuffix | runtime/src/ringbuf.rs:136-165 | whatever the cursor, the window replays a suffix of the stream |
| Emulator.ProxyMirrorsEmulator | runtime/src/session.rs:1509-1525 | over every run of separable output, of attaches, drains and detaches of any clients with any cursors, and with any eviction from the window and the queue: the attached client is owed the stream from where its own emulator starts, the model of the proxy is that of an emulator fed the stream from the origin of the proxy, and where the two starts are one place the two agree and that emulator meets nothing the proxy would answer |
| Emulator.FreshAttachLinesUpExactly | runtime/src/session.rs:1514-1538 | a client that starts afresh starts where the proxy does exactly when its queue held the whole replay |
| Emulator.ContinuedAttachLinesUpExactly | runtime/src/session.rs:1509-1515 | a client fed a contiguous replay in full starts where the proxy does exactly when the emulator it goes on with, or at a cursor that is not its own a new one, started at the origin of the proxy |
| Emulator.OutputLinesUpExactly | runtime/src/session.rs:1878-1901 | a chunk leaves the attached client and the proxy at one start exactly when the queue of the client drops nothing |
| Emulator.OtherFreshLinesUpExactly | runtime/src/session.rs:1514-1525 | another client that starts afresh leaves a client in line exactly when both emulators start at one place |
| Emulator.StaysInLine | runtime/src/session.rs:1509-1538 | over every run in which nothing of that kind happens a client stays in line, attached or away, and agrees with the proxy whenever it is attached |
| Emulator.StartsAlikeExactly | runtime/src/capproxy.rs:26-35 | two emulators agree on every stream exactly when they start at one place |
| Emulator.AgreementLastsExactly | runtime/src/session.rs:1878-1901 | from any reachable state, an attached client that loses nothing agrees with the proxy after every further output exactly when it agrees now |
| Emulator.ReturnAfterAnotherDisagrees | runtime/src/session.rs:1511-1525 | from any reachable state: one client attaches and sees a push, another attaches without a cursor, the first comes back at its own cursor, and is fed the push the proxy has forgotten |
| Emulator.OverflowDisagrees | runtime/src/capproxy.rs:37-43 | from any reachable state: a push dropped by the queue of the attached client leaves it and the proxy in disagreement |
| Chunks.StripNotIdempotent | runtime/src/capproxy.rs:171-206 | stripping the stripped output can strip more: removing a query can join its surroundings into another |
| TermFilter.StrippedBytesAccounted | runtime/src/termfilter.rs:85-121 | kept plus counted bytes make up the input, and the output is the input exactly when no sequence was counted |
| TermFilter.CsiIsFiltered | runtime/src/termfilter.rs:143-175 | a complete control sequence is deleted exactly when it has a reply form; every other, keys and mouse reports among them, is kept byte for byte |
| TermFilter.KeysAreKept | runtime/src/termfilter.rs:143-175 | on the bytes: any c and n is deleted, a u exactly when led by a question mark, a brace exactly when marked by a star, and every other final is kept, the cursor report, arrows, tilde keys and mouse reports among them |
| TermFilter.BrokenIsKept | runtime/src/termfilter.rs:143-179 | a control sequence cut off by the end or by a byte that has no place in it, or past the bound, is kept |
| TermFilter.StringIsFiltered | runtime/src/termfilter.rs:182-238 | a complete control string of any kind and either terminator is deleted exactly when it is a colour or checksum report, and kept otherwise |
| TermFilter.OtherStringsAreKept | runtime/src/termfilter.rs:182-226 | on the bytes: a string is deleted exactly when it is an operating-system command that begins 10, 11 or 12 and ;rgb: or ;rgba:, or a device string that begins with digits and !~ |
| TermFilter.PlainPrefixIsKept | runtime/src/termfilter.rs:85-121 | bytes without ESC pass unchanged in front of anything |
| TermFilter.TermFilter.Filter | runtime/src/termfilter.rs:85-121 | the loop keeps, and counts, exactly what the recursive filter does |
| TermFilter.TermFilter.FilterChunk | runtime/src/termfilter.rs:90-120 | the index loop with its copied-up-to mark collects what the recursive filter keeps |
| TermFilter.ClassifySlice | runtime/src/termfilter.rs:125-133 | recognises the reply forms at the head of the input and their length |
| TermFilter.ClassifyCsi | runtime/src/termfilter.rs:143-175 | the scan of body and final byte within the bound decides the control-sequence replies |
| TermFilter.ClassifyOsc | runtime/src/termfilter.rs:182-200 | the digit and prefix scan decides the colour reports |
| TermFilter.ClassifyDcs | runtime/src/termfilter.rs:209-220 | the digit and prefix scan decides the checksum report |
| Mirror.AnswerEaten | runtime/src/termfilter.rs:125-238 | every single answer, in every keyboard state and whatever follows it, is deleted whole |
| Mirror.ChecksumEaten | runtime/src/termfilter.rs:209-220 | the checksum report is deleted for all 65536 memory ids |
| Mirror.KittyFlagsEaten | runtime/src/termfilter.rs:143-175 | the keyboard report is deleted for every flag value |
| Mirror.FaceRepliesEaten | runtime/src/termfilter.rs:182-200 | a colour answer of any number of groups is deleted, with either terminator |
| Mirror.ResponsesEaten | runtime/src/termfilter.rs:85-121 | the concatenated answers of any chunk are deleted in front of any other input |
| Mirror.FilterMirrorsProxy | runtime/src/termfilter.rs:85-238 | for every keyboard state and every output chunk, filtering the whole response of the proxy leaves nothing |
| RingBuf.ReplayMeaning | runtime/src/ringbuf.rs:136-165 | a replay is contiguous exactly inside the retained window; for a cursor within the stream the skip and the bytes close the distance to the end and the bytes are what follows the skip; only a cursor past the end does not add up |
| RingBuf.WindowAfterRun | runtime/src/ringbuf.rs:80-172 | after any writes and clears the history is all that was written and the window its longest suffix that fits and reaches back no further than the last clear |
| RingBuf.RingBuffer.Write | runtime/src/ringbuf.rs:80-104 | in place: keeps the newest bytes, also of a write larger than the window, and returns how many were dropped |
| RingBuf.RingBuffer.ReadSince | runtime/src/ringbuf.rs:136-165 | returns the replay the specification gives for the abstract window |
| RingBuf.RingBuffer.Clear | runtime/src/ringbuf.rs:169-172 | drops the window, counts it as dropped, keeps the cursor |
| RingBuf.RingBuffer.SliceFrom | runtime/src/ringbuf.rs:174-187 | returns the bytes from an index on, wherever the two halves of the deque are split |
| RingBuf.PushKeepsNewest | runtime/src/ringbuf.rs:248-265 | what is pending after a push is the newest part of what was pending and what came in |
| RingBuf.WatermarkExactly | runtime/src/ringbuf.rs:248-279 | a push is past the watermark exactly when it drops bytes or the queue can hold none, a limit is set, and everything dropped since the start is above it by then; it is accepted exactly when all of it fits |
| RingBuf.ByteQueue.Push | runtime/src/ringbuf.rs:248-278 | in place: drops the oldest bytes over the bound, accounts them, and reports overflow past the hard watermark |
| RingBuf.ByteQueue.Take | runtime/src/ringbuf.rs:280-285 | hands out the oldest bytes up to the maximum |
| RingBuf.ByteQueue.TakeUnreportedGap | runtime/src/ringbuf.rs:287-293 | reports each dropped byte in exactly one gap, and none when there is none |
| Outbound.DrainYieldsEverything | runtime/src/session.rs:540-559 | repeated pulls without pushes yield exactly the owed items: the pending gap, the controls, the bytes, then the close |
| Outbound.DrainedIsEmpty | runtime/src/session.rs:540-559 | the drain ends with nothing left, and asking again yields nothing |
| Outbound.ChunksJoin | runtime/src/session.rs:540-559 | the data items of a drain are non-empty, of bounded size, and join to the pending bytes |
| Outbound.BytesAreConserved | runtime/src/session.rs:507-559 | over every run pushed bytes are delivered, covered by a reported gap, unreported, or queued, the queue stays within capacity, and every gap handed out was reported or sent |
| Outbound.FirstCloseCodeWins | runtime/src/session.rs:523-532 | over every run the first close code stands |
| Outbound.SlowClientExactly | runtime/src/session.rs:505-514 | over every run nothing else closes, a connection is closed as too slow exactly when more than the limit was pushed since the start and is neither handed out nor waiting |
| Outbound.CloseAtMostOnce | runtime/src/session.rs:540-559 | a close is handed out at most once, and never again after it was |
| Outbound.Outbound.PushBytes | runtime/src/session.rs:507-514 | pushes into the queue and closes a client past the hard watermark as too slow |
| Outbound.Outbound.PushControl | runtime/src/session.rs:516-520 | queues a control in order |
| Outbound.Outbound.CloseWith | runtime/src/session.rs:523-532 | keeps the first code |
| Outbound.Outbound.TryNext | runtime/src/session.rs:540-559 | hands out the next item in priority order and moves the state by that item |
| Delivery.EndToEnd | runtime/src/session.rs:1460-1538 | from any attach with a cursor inside the stream, over any run of output, pulls, controls and closes and any eviction: every data item is the stream at the cursor of the client, cursor plus pending is the stream length while subscribed, a client told of no gap holds an exact slice, and one that drained is at the end |
| Delivery.ItemsFollowCursor | runtime/src/session.rs:540-559 | every data item equals the stream at attach offset plus reported gaps plus delivered bytes |
| Delivery.SubscribedIsAccounted | runtime/src/session.rs:1896-1901 | cursor plus queued and unreported bytes is always the total written |
| Delivery.AccountedExactlyInsideStream | runtime/src/ringbuf.rs:136-165 | the accounting holds at attach exactly for cursors within the stream |
| Delivery.CursorlessReplay | runtime/src/session.rs:1466-1475 | without a cursor everything retained is replayed, with a gap exactly for what is gone, where that is configured and anything can be retained, and nothing otherwise |
| Delivery.SessionOutput.OnOutput | runtime/src/session.rs:1877-1902 | one chunk: answers returned, the stripped rest retained and forwarded to the subscriber |
| Delivery.SessionOutput.Attach | runtime/src/session.rs:1460-1538 | notice, gap and replay queued for the new subscriber, the previous one closed for takeover, and the proxy resynchronised exactly for a fresh attach or a gap |
| Delivery.SessionOutput.ReadReplay | runtime/src/session.rs:1460-1475 | no cursor replays all or nothing by policy, a cursor replays what is missing |
| Delivery.FillReplay | runtime/src/session.rs:1526-1538 | a gap is announced before the replayed bytes |
| WriterFence.WriterFenceHolds | runtime/src/session.rs:787-813 | over every interleaving of attach, detach, renewal, teardown, enqueue, receive, check and write: written client chunks carry non-decreasing connections, the written chunks of each connection are a prefix of its accepted ones, and the answers of the runtime are written or waiting in order, none skipped |
| WriterFence.WrittenOfConnIsPrefix | runtime/src/session.rs:1934-1950 | what was written of a connection is a prefix of what was dealt with, and all of it if none was skipped |
| WriterFence.WaitingIsWritten | runtime/src/session.rs:1934-1950 | from any reachable state, while the owner stays and writes succeed, as many turns as chunks wait write every chunk the owner had accepted and every answer, whatever is sent in between |
| WriterFence.StoppedForGood | runtime/src/session.rs:1944-1946 | after a failed write nothing more is written, whatever follows |
| WriterFence.EvictedWritesNothing | runtime/src/session.rs:1940-1943 | a connection that is replaced, leaves, is renewed away or torn down never has another chunk written, beyond one already past the fence |
| WriterFence.SessionInput.Attach | runtime/src/session.rs:1451-1458 | takes the next connection number and moves the fence to it |
| WriterFence.SessionInput.Detach | runtime/src/session.rs:860-873 | opens the fence only when the connection still owns it |
| WriterFence.SessionInput.WriteInput | runtime/src/session.rs:787-813 | ok exactly when the filtered chunk was queued or empty, backpressure exactly when the queue was full and open, evicted off the fence or with the writer gone; the accepted chunks grow by exactly that chunk |
| WriterFence.SessionInput.AnswerChild | runtime/src/session.rs:763-785 | queues an answer of the runtime past the fence |
| WriterFence.SessionInput.WriterTurn | runtime/src/session.rs:1934-1950 | takes the oldest chunk; one the runtime wrote or whose connection owns the fence is written if the write succeeds and stops the writer if it fails, and any other is dropped |
| Takeover.TakeoverRate | runtime/src/session.rs:654-671 | in any history, a stretch shorter than the window and without a renewal holds at most twice the budget of accepted preemptions |
| Takeover.RefusedExactly | runtime/src/session.rs:654-671 | for every policy and history an attach of the present generation that meets an owner is refused exactly when the window is still running and the number of attaches after the first of the generation that came since it began has reached the budget, or the budget is zero |
| Takeover.RateIsTight | runtime/src/session.rs:654-671 | for every budget and every window of two or more, twice the budget is reached across a window boundary |
| Takeover.RefusalsKeepIncumbent | runtime/src/session.rs:1427-1446 | any number of refused attaches in a row leave everything but the budget as it was |
| Takeover.FirstAttachAfterRenewSucceeds | runtime/src/session.rs:1416-1446 | after any history a renewal is refused exactly when it finds the session dead; after an accepted one the first attach of the new generation preempts nobody and is accepted unless it finds the session dead, and the old generation is turned away |
| Takeover.DeadOwnedExactly | runtime/src/session.rs:1416-1424 | in a history without attaches that asked before the end a dead session has no owner, and the next attach gets it exactly when it asked before the end and presents its generation |
| Takeover.TakeoverLimiter.Allow | runtime/src/session.rs:654-671 | decides and charges as the budget says |
| Manager.AdmissionHolds | runtime/src/session.rs:1173-1207 | over every interleaving of claims, mints, publishes, look-ups, teardowns, removals and renewals, the running sessions the map names plus the claims stay within the limit, and no name is both claimed and published |
| Manager.PublishKeepsTotal | runtime/src/session.rs:1338-1343 | a publish displaces nobody and turns its claim into a counted session |
| Manager.AbandonGivesBack | runtime/src/session.rs:995-999 | a dropped claim leaves the state as it was before the claim |
| Manager.ClaimStands | runtime/src/session.rs:1173-1207 | in any run a claim stands, with its own generation, until it is published or abandoned |
| Manager.RunningSplits | runtime/src/session.rs:1178-1184 | what really runs is what the capacity check counts plus the running sessions no name leads to |
| Manager.StepOrphans | runtime/src/session.rs:1749-1751 | a running session loses its name exactly by a removal that goes to the session mapped by then |
| Manager.CapHolds | runtime/src/session.rs:1173-1207 | in every history whose removals find dead sessions, all running sessions and claims together stay within the limit |
| Manager.CapPassedExactlyWithOrphans | runtime/src/session.rs:1178-1184 | from a reachable state, and without another such removal, the limit can be passed exactly when a session already runs without a name |
| Tokens.StepAgreesExactly | runtime/src/token.rs:82-150 | one step keeps tokens and generations in agreement exactly when it neither strands a running session with a stored token nor mints for a generation that is gone |
| Tokens.AgreementExactly | runtime/src/token.rs:82-150 | they agree all along a history exactly when it has no such step: every stored token belongs to the running session of its name at that generation, or to the spawn about to publish it |
| Tokens.PatientRunsAgree | runtime/src/session.rs:1130-1166 | claiming a name only when no session of it is held, renewing or tearing down no session between the halves of a renewal, and moving the generation only of a session that is alive at that moment, keeps the agreement throughout and the limit |
| Tokens.PatientRuns | runtime/src/session.rs:1596-1610 | in such a history a held session is the one its name stands for, or the name stands for nothing |
| Tokens.StoredIsLatest | runtime/src/token.rs:82-126 | the stored token is always the latest minted for its name with no revocation since |
| Tokens.VerifiedTokenIsCurrent | runtime/src/token.rs:156-201 | a token that verifies is the latest mint, unexpired and unrevoked, at exactly the generation presented; in a patient history with nothing claimed it is for the running session at that generation |
| Tokens.OldTokensNeverVerify | runtime/src/token.rs:141-150 | a token once replaced or revoked is stored in no later state |
| Tokens.RevocationIsFinal | runtime/src/session.rs:1561-1581 | after the first half of a renewal or the teardown of a running session, no token minted before verifies in any later state |
| Tokens.TokenLivesExactly | runtime/src/token.rs:82-195 | a minted token verifies at its generation for exactly the configured lifetime, over any later run that neither mints for nor revokes its name |
| Overlaps.LateKillOrphans | runtime/src/session.rs:1596-1610 | from any reachable state, a kill overtaken by a whole restart leaves the restarted session running without a name and its token stored |
| Overlaps.LateKillPassesCap | runtime/src/session.rs:1596-1610 | after that the limit on running sessions can be passed |
| Overlaps.CrossedRenewalsBreak | runtime/src/session.rs:1568-1585 | two renewals whose mints cross leave the token of the older generation stored |
| Overlaps.KilledRenewalBreaks | runtime/src/session.rs:1568-1585 | a renewal overtaken by a teardown leaves a token stored for a dead session |
| Overlaps.DeadRenewalBreaks | runtime/src/session.rs:1565-1585 | a renewal that found its session alive, and moves the generation after a teardown of it, leaves a token stored for a dead session, with nothing between its two halves |
| ManagerObjects.TokenStore.MintForSession | runtime/src/token.rs:82-126 | refuses a zero lifetime and changes nothing; otherwise replaces the one token of the session by a new one with its generation and expiry |
| ManagerObjects.TokenStore.RevokeSession | runtime/src/token.rs:141-150 | removes the stored token and no other |
| ManagerObjects.TokenStore.VerifyToken | runtime/src/token.rs:156-201 | accepts exactly the stored, unexpired token at its generation, keeps it for reuse, and removes an expired one it sees |
| ManagerObjects.SessionManager.ClaimName | runtime/src/session.rs:1173-1195 | claims name and slot together, or refuses for a taken name or for capacity and leaves no trace |
| ManagerObjects.SessionManager.MintForSpawn | runtime/src/session.rs:1312-1313 | mints for the claimed name; a failed mint leaves the claim to be abandoned |
| ManagerObjects.SessionManager.Publish | runtime/src/session.rs:1338-1343 | releases the claim and maps the new session in one step, displacing nobody in a reachable state |
| ManagerObjects.SessionManager.GetSession | runtime/src/session.rs:1110-1112 | hands out the session mapped at that moment |
| ManagerObjects.SessionManager.TeardownHeld | runtime/src/session.rs:1660-1682 | ends the session held, mapped or not, and revokes the token of its name unless it was dead already |
| ManagerObjects.SessionManager.ForgetHeld | runtime/src/session.rs:1749-1751 | removes the name, whoever has it by then |
| ManagerObjects.SessionManager.BumpHeld | runtime/src/session.rs:1562-1581 | the next generation, and the token of the name revoked, under the lock, or a refusal for a session that was dead when looked up |
| ManagerObjects.SessionManager.MintHeld | runtime/src/session.rs:1585-1592 | the new token, minted for the bumped generation with the lock gone |
| Lifetime.AbsoluteCapHolds | runtime/src/session.rs:1801-1818 | a live session looked at from its absolute deadline on is decided to have ended, attached or not, and never as too old before; its warning was marked as given exactly when the timer had looked within the last lead before the deadline |
| Lifetime.IdleMeansQuiet | runtime/src/session.rs:1802-1810 | an end for idleness is decided only with nobody attached and no attach, pong, input or output for the whole idle lifetime |
| Lifetime.LookDecidesExactly | runtime/src/session.rs:1796-1827 | what a look at a live session decides, told from its history: the end by age, the idle end exactly when unowned for the idle lifetime since the last activity, and each warning exactly inside its lead, once, with the time that is left |
| Lifetime.LeavingStartsIdle | runtime/src/session.rs:1802-1806 | an owner that leaves, is renewed away or misses its last ping leaves a live session that ends idle exactly from the idle lifetime after its last activity on |
| Lifetime.IdleActHitsExactly | runtime/src/session.rs:1796-1858 | over every interleaving, the act of an idle decision meets an owner exactly when one attached after the look and stands until then: a warning goes to that owner and to nobody otherwise, an end tears down the session under it |
| Lifetime.AttachBetween | runtime/src/session.rs:1796-1858 | from any state with an idle decision at hand, an attach between the look and the act gets the idle warning, or is torn down as idle |
| Lifetime.IdleDecisionsExist | runtime/src/session.rs:1802-1827 | a new session left alone comes to both idle decisions, the warning and the end |
| Lifetime.EachWarningOnce | runtime/src/session.rs:1811-1846 | over every run each of the two warnings is decided at most once and delivered at most once |
| Lifetime.SecondIdleEndUnwarned | runtime/src/session.rs:1819-1827 | a session warned as idle, taken up and left again ends idle with no further idle warning, from any state in which the first warning is due |
| Lifetime.DetachedExactlyAtLimit | runtime/src/session.rs:823-873 | after any run the owner is detached, and its subscription taken, at exactly the limit-th ping missed in a row, the session lives on, and no pong, missed ping or detach of another connection moves owner or count |
| Lifetime.SessionClock.OnPong | runtime/src/session.rs:823-830 | clears the missed count for the owner and counts as activity |
| Lifetime.SessionClock.OnMissedPing | runtime/src/session.rs:832-854 | reports whether the connection counts as detached, and detaches the owner at the limit |
| Lifetime.SessionClock.LookAt | runtime/src/session.rs:1796-1831 | one look of the timer under the lock: expire, warn once and mark it, or leave |
| Lifetime.SessionClock.ActOn | runtime/src/session.rs:1833-1858 | what was decided, after the lock: the warning to whoever is subscribed by then, the end for whoever owns the session by then |
| ToolsMux.MuxInvariant | runtime/src/tools.rs:176-210 | over every interleaving the table lists exactly the waiting calls under their own ids, at most 64, no id is ever used twice, and every outcome, a reply or an error, carries the id of its caller |
| ToolsMux.AtMostOneOutcome | runtime/src/tools.rs:176-210 | a call that has its outcome keeps it, and its ids never change |
| ToolsMux.ReplyFindsItsCall | runtime/src/tools.rs:215-223 | a call with a reply got it from the Mac answering exactly the id under which that call waited, and its caller sees its own id again (section 5 of JSON-RPC 2.0) |
| ToolsMux.SecondReplyIgnored | runtime/src/tools.rs:217-223 | answering one id twice is answering it once |
| ToolsMux.FirstCloseCodeWins | runtime/src/tools.rs:149-159 | the close code is that of the first close of the run |
| ToolsMux.CloseReleasesEveryone | runtime/src/tools.rs:165-172 | after a close every waiting caller wakes to be told that no Mac is attached, and the table is empty |
| ToolsMux.ClosedStaysEmptyExactly | runtime/src/tools.rs:176-188 | a closed and released table stays empty in every later run exactly when no call stands between its closed check and its entry |
| ToolsMux.LateEntry | runtime/src/tools.rs:176-188 | from any open state: check, close, entry puts a call into the closed table, and its own timeout takes it out with its own id |
| ToolsMux.EveryCallCanEnd | runtime/src/tools.rs:181-210 | from every reachable state, two steps of its own decide any call, with an outcome under the id of its caller |
| ToolsMux.Attached.BeginCall | runtime/src/tools.rs:176-179 | refuses at once on a closed socket |
| ToolsMux.Attached.EnterCall | runtime/src/tools.rs:181-188 | takes the next id and a slot, or refuses at 64 |
| ToolsMux.Attached.OnMacReply | runtime/src/tools.rs:215-223 | hands the reply to the call waiting under its id and frees the slot |
| ToolsMux.Attached.FinishCall | runtime/src/tools.rs:893-903 | returns the reply or the failure, either under the original id, and frees the slot |
| ToolsMux.Attached.CloseWith | runtime/src/tools.rs:149-173 | closes once, keeps the first code, drops every waiter |
| ToolsHub.OneMacPerSession | runtime/src/tools.rs:529-536 | in every history two open, not evicted sockets of a session are one, and it is the mapped one |
| ToolsHub.FirstCodeStands | runtime/src/tools.rs:149-159 | the first close code chosen for a socket stands in every later state |
| ToolsHub.EvictedIsTold | runtime/src/tools.rs:529-536 | an evicted incumbent is closed for takeover unless it had a code, and the newcomer is mapped and open |
| ToolsHub.ExitTouchesOnlyItsOwn | runtime/src/tools.rs:634-650 | a finishing task unmaps and records exactly when its socket is still mapped, and records the code the socket was closed with |
| ToolsHub.SupersededExitIsSilent | runtime/src/tools.rs:638-650 | a socket displaced once is never mapped again, and whenever it ends its cleanup leaves mappings and records alone |
| ToolsHub.SweepLeavesNothingStale | runtime/src/tools.rs:813-849 | after a sweep no map mentions an expired grant, a vanished session or a closed socket |
| ToolsHub.SweepKeepsTheRest | runtime/src/tools.rs:813-849 | a session that exists with a current grant and an open socket goes through a sweep unchanged |
| ToolsHub.SweepTells | runtime/src/tools.rs:813-849 | a Mac taken away by a sweep is told that its grant ran out, or else that its session ended; only the first is put on record, while the session exists |
| ToolsHub.EveryoneIsTold | runtime/src/tools.rs:852-857 | closing the hub empties the map and tells every Mac in it the reason, unless it had its code already |
| ToolsHub.RevokeOne | runtime/src/tools.rs:381-400 | a revocation takes the grant and the mapping of that name away, closes its socket, and records the code exactly if there was a grant or a socket; everything else stays |
| ToolsHub.OldSecretsNeverVerify | runtime/src/tools.rs:414-443 | a secret no longer stored verifies in no later state |
| ToolsHub.RotationRetires | runtime/src/tools.rs:346-397 | minting anew, revoking and forgetting each retire every earlier secret; a new one verifies at once |
| ToolsHub.SecretLivesExactly | runtime/src/tools.rs:346-379 | a secret verifies for exactly the lifetime it was minted with, over any later run that does not rotate, revoke or forget it and sweeps only while its session exists |
| ToolsHub.MissedCountsSilence | runtime/src/tools.rs:594-627 | the missed count of an open socket is the number of ping intervals since its last frame |
| ToolsHub.SilenceClosesExactly | runtime/src/tools.rs:614-627 | a tick closes a socket for silence exactly at the fourth silent interval in a row |
| ToolsHub.RevokeSplit | runtime/src/tools.rs:381-400 | revoking names one after another is revoking them at once |
| ToolsHub.ForgetSplit | runtime/src/tools.rs:501-505 | forgetting names one after another is forgetting them at once |
| ToolsHub.ToolsHub.MintWithTtl | runtime/src/tools.rs:346-376 | refuses a zero or too long lifetime, otherwise replaces the grant, and the new secret verifies |
| ToolsHub.ToolsHub.VerifySecret | runtime/src/tools.rs:414-443 | accepts exactly the stored unexpired secret and removes an expired grant it sees |
| ToolsHub.ToolsHub.IssueLoopbackKey | runtime/src/tools.rs:458-469 | replaces the key of the session and no other, or removes it when no new one could be drawn |
| ToolsHub.ToolsHub.InstallSocket | runtime/src/tools.rs:517-536 | maps the new socket and hands back the displaced one |
| ToolsHub.ToolsHub.CloseIfOpen | runtime/src/tools.rs:149-159 | the first code wins |
| ToolsHub.ToolsHub.RevokeSession | runtime/src/tools.rs:381-400 | drops grant and mapping, closes the socket, records the detach, and says whether there was anything |
| ToolsHub.ToolsHub.Forget | runtime/src/tools.rs:501-505 | key, grant, mapping and record of the session all go |
| ToolsHub.ToolsHub.FinishSocket | runtime/src/tools.rs:634-650 | closes normally unless a code was chosen, then cleans up if still current |
| ToolsHub.ToolsHub.MissPing | runtime/src/tools.rs:614-627 | one more silent interval, or the close past the third |
| ToolsHub.ToolsHub.SweepNow | runtime/src/tools.rs:813-849 | the three loops, name by name, have the effect of the sweep as one step |
| Tracking.BlockedSurvives | runtime/src/admin_auth.rs:292-314 | pruning and least-recently-seen eviction never remove or change a record under an active block |
| Tracking.AskingKeepsAlive | runtime/src/server.rs:357-369 | asking keeps a record from being pruned for the whole memory, and from being evicted while an unblocked record was last seen before |
| Tracking.NoSlotMeansAllBlocked | runtime/src/admin_auth.rs:302-314 | a source goes without a slot exactly when the map is full of active blocks and does not have it |
| Tracking.FindVictim | runtime/src/server.rs:390-402 | the search returns a least recently seen record that is not blocked, and nothing exactly when all are |
| Tracking.EvictForRoom | runtime/src/admin_auth.rs:302-314 | evicts such a record exactly when the map is full and the source is new |
| AdminAuth.DelayDoubles | runtime/src/admin_auth.rs:271-277 | the armed delay doubles up to its ceiling of five seconds or its eleventh value and never shrinks |
| AdminAuth.FirstDelays | runtime/src/admin_auth.rs:271-277 | the first failure blocks for the base, the second for twice that, the eleventh and every later one for 1024 times that, each up to five seconds |
| AdminAuth.FirstFailureBlocks | runtime/src/admin_auth.rs:255-290 | a source with nothing remembered is told of the base, up to five seconds, as soon as its first failure is counted |
| AdminAuth.TrackedSourcesBounded | runtime/src/admin_auth.rs:253-314 | over every run at most 256 sources are tracked |
| AdminAuth.CountedArms | runtime/src/admin_auth.rs:264-279 | a counted failure arms the delay of its consecutive number: one more than what is on record, or the first when nothing is remembered |
| AdminAuth.BlockMovedExactly | runtime/src/admin_auth.rs:217-289 | one step before its deadline leaves a block exactly as it is unless it is a success of its source or counts an attempt let through before; such a count escalates the block by one |
| AdminAuth.BlockHoldsExactly | runtime/src/admin_auth.rs:217-289 | a running block keeps deadline and number against all traffic of all sources in every interleaving exactly when no attempt of its source let through before is still to be counted |
| AdminAuth.RunKeepsPast | runtime/src/admin_auth.rs:217-251 | while a block runs, however it is moved, no attempt of its source is let through, and its deadline only moves out |
| AdminAuth.CloseCountsOverlap | runtime/src/admin_auth.rs:217-289 | two counted failures of a source come closer than the delay armed by the first only if the attempt of the second had asked before the first was counted |
| AdminAuth.SpacedExactly | runtime/src/admin_auth.rs:217-289 | after a counted failure the next of its source is at least the armed delay away, in every interleaving, exactly when no other attempt of the source is pending |
| AdminAuth.BlockLastsExactly | runtime/src/admin_auth.rs:217-251 | during a block every attempt is told of at least the time to the armed deadline; of exactly that, and of nothing from the deadline on, when no other attempt was pending |
| AdminAuth.UncountedOnlyWhenFull | runtime/src/admin_auth.rs:257-264 | a let-through failure goes uncounted exactly when 256 other sources are all under active blocks |
| AdminAuth.AdminAuthenticator.BlockedFor | runtime/src/admin_auth.rs:242-251 | reports the remaining block and refreshes the record; without one the attempt is let through |
| AdminAuth.AdminAuthenticator.RecordFailure | runtime/src/admin_auth.rs:253-289 | prunes, makes room, counts and arms, or leaves the source untracked when all are blocked |
| AdminAuth.AdminAuthenticator.CountOrThrottle | runtime/src/admin_auth.rs:217-235 | two steps with two readings of the clock: throttles with the exact remaining time, or counts |
| AdminAuth.AdminAuthenticator.VerifyCredential | runtime/src/admin_auth.rs:163-196 | a correct credential of allowed size with a free slot is always accepted, blocked or not, and clears only its own source; lack of a slot counts nothing |
| UpgradeLimiter.TrackedSourcesBounded | runtime/src/server.rs:381-441 | over every run at most 4096 addresses are tracked |
| UpgradeLimiter.BanHolds | runtime/src/server.rs:352-423 | until its deadline a ban survives any churn of other addresses; failures of its own already under way can only push it out |
| UpgradeLimiter.BanLastsExactly | runtime/src/server.rs:352-374 | a banned address is told exactly the time left, and nothing from the deadline on |
| UpgradeLimiter.BanIsEarned | runtime/src/server.rs:404-423 | a ban means that the limit of failures really happened within one window before it |
| UpgradeLimiter.BurstBansAtLimit | runtime/src/server.rs:404-423 | an address whose failure opens a window, without a record or with one under no ban whose window has run out, is banned at exactly the failure that reaches the limit, whatever other addresses do meanwhile, as long as the map has room |
| UpgradeLimiter.CountReachesLimit | runtime/src/server.rs:404-423 | the same from any count an address has reached in its window |
| UpgradeLimiter.UpgradeFailureLimiter.CheckAt | runtime/src/server.rs:352-374 | reports the remaining ban and refreshes the record |
| UpgradeLimiter.UpgradeFailureLimiter.RecordFailureAt | runtime/src/server.rs:381-423 | prunes, evicts, counts, and says whether this failure started a ban |
| UpgradeLimiter.UpgradeFailureLimiter.OnSuccess | runtime/src/server.rs:426-428 | clears the record of that address and no other |
| KillBudget.BudgetHolds | runtime/src/killdomain.rs:211-232 | over every interleaving of reads, swaps and releases, the counter is the sum of all tracked processes, within the ceiling, and each session within its cap |
| KillBudget.ReleaseGivesAllBack | runtime/src/killdomain.rs:765-768 | a release never underflows, returns exactly its own processes, and leaves every other session alone |
| KillBudget.QuietReservation | runtime/src/killdomain.rs:626-645 | an undisturbed reservation tracks exactly when session and domain have room, and otherwise changes nothing |
| KillBudget.GlobalTracking.constructor | runtime/src/killdomain.rs:195-209 | the ceiling and the headroom make up the limit on open files where that is the smaller, and the ceiling is the configured one where it is not or the limit is unknown |
| KillBudget.GlobalTracking.Reserve | runtime/src/killdomain.rs:211-228 | takes one slot exactly below the ceiling |
| KillDomain.TeardownIsBounded | runtime/src/killdomain.rs:680-713 | whatever the processes do, a teardown takes less than grace, 500 ms and one poll step together |
| KillDomain.TeardownConverges | runtime/src/killdomain.rs:680-713 | where tracked pids are own children, the session may be signalled and nothing joins its group, every teardown ends with nothing tracked or in the group running and an empty report, whatever traps, forks, exits or leaves |
| KillDomain.ReportIsExact | runtime/src/killdomain.rs:698-713 | the report is empty exactly when all tracked pids are gone and the group is not alive, which for own signallable processes is exactly that none runs |
| KillDomain.ReportNames | runtime/src/killdomain.rs:698-713 | the report names exactly the tracked pids that are still there, and the leader while its group counts as alive |
| KillDomain.SurvivorsHadTheirTime | runtime/src/killdomain.rs:680-713 | a report that is not empty comes only after the whole grace and the whole wait after SIGKILL |
| KillDomain.OutsidersUntouched | runtime/src/killdomain.rs:680-696 | a process neither tracked nor in the group comes out as it would have without a teardown: no signal, no reaping |
| KillDomain.KillOnlyAfterGrace | runtime/src/killdomain.rs:680-696 | every SIGKILL of a teardown is stamped with a time at which the whole grace has passed, and none is sent when the first wait ended with nothing alive |
| KillDomain.HonouringSessionsEndAtOnce | runtime/src/killdomain.rs:680-696 | a session whose processes honour SIGTERM ends at the first look, with no SIGKILL and no waiting |
| KillDomain.ForeignZombieIsReported | runtime/src/killdomain.rs:698-713 | a tracked zombie that is not an own child is reported |
| KillDomain.WaitIsBounded | runtime/src/killdomain.rs:742-761 | the wait ends at the first drained look or less than a poll step after its deadline |
| KillDomain.SessionKillDomain.SetLeader | runtime/src/killdomain.rs:617-620 | records the leader even when it cannot be tracked |
| KillDomain.SessionKillDomain.Track | runtime/src/killdomain.rs:626-645 | tracks and reserves, or refuses at either cap and changes nothing |
| KillDomain.SessionKillDomain.ReleaseAll | runtime/src/killdomain.rs:765-768 | returns all slots and forgets the pids |
| KillDomain.SessionKillDomain.TouchTracked | runtime/src/killdomain.rs:715-740 | signals or reaps every tracked pid in order |
| KillDomain.SessionKillDomain.StillAlive | runtime/src/killdomain.rs:746-752 | a tracked pid or the group is alive |
| KillDomain.SessionKillDomain.WaitUntilDrained | runtime/src/killdomain.rs:742-761 | polls until drained or past the deadline |
| KillDomain.SessionKillDomain.TerminateTier1 | runtime/src/killdomain.rs:680-713 | SIGTERM, wait, SIGKILL, wait, reap, report |

## Left out

- Sockets, the HTTP routes, WebSocket framing, tasks, channels and timers: steps of a machine, a sequence, or a number passed in.
- SHA-256, constant-time comparison, randomness and erasing of plaintext: hashes do not collide and minted values are never issued twice.
- Borrowed against owned output of the two scanners: only the bytes, not whether they were copied.
- The deque and its memory: a sequence; only the slice over its two halves is modelled with an arbitrary split.
- Byte counters near the top of 64 bits, and id wrap-around: counters are unbounded.
- Lock-level interleaving of attach and output: the snapshot of the window, the change of subscriber and the filling of its queue are one step, and so are the two halves of one output chunk.
- Tombstones, and which generation a restart chooses: the generation of a claim is free. Agreement compares generation numbers, so a late renewal and a restart that arrive at one number agree.
- A child that exits before its session is published: the session is published as running.
- Emulator.ProxyMirrorsEmulator: a client that handles a gap without resetting its emulator, and a chunk the proxy has seen and the window not yet stored when an attach takes its snapshot, are not modelled.
- Manager.TearDown: ending the session and revoking its token are one step; the source drops the lock of the session in between (runtime/src/session.rs:1666-1682), so a late revocation can take the token of a session restarted under the same name.
- Lifetime.Touch: an attach and a renewal ask for liveness in the step that acts on it; the attach that asked earlier is part of `Takeover`.
- Lifetime.SessionClock.ActOn: the signals, the revocation and the removal that belong to an expiry are steps of the kill domain and the manager; ending the session and taking its subscriber are one step, and so are picking a subscriber and pushing a warning to it.
- ToolsMux.Attached.FinishCall: whether the send fails or the wait times out is an input; the queue toward the Mac and requests the Mac itself makes are not modelled.
- ToolsHub.ToolsHub.SweepNow: the three maps are one state; a concurrent attach between its loops is not modelled.
- Looking a session up by its loopback key.
- KillDomain.TeardownConverges: processes never reuse a pid, SIGKILL takes effect at once, and a sleep lasts exactly one poll step; signals go by pid, not through a pidfd.
- Choosing the tier, the subreaper and the reading of the process file system.
- Audit records, metrics, status documents, reason texts and error messages.
- Configuration, start-up order, the seeding of files from archives, manifests and scripts.
