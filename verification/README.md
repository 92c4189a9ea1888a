# Verified models of the oracle probes

This project models the logic under the repository's probe and capture scripts and proves what they
promise, for all inputs, runs and interleavings. `dafny verify dfyconfig.toml` checks everything.

**Heartbeats.** `HeartbeatScan`, `CaptureReader`, `FreezeDetector` and `ChurnProbe` model the capture
script's reader, its freeze detector, and the program that prints the heartbeats, whose lines
`ChurnReport` reads back. The reader keeps
only the last 512 bytes. It finds the same maximum as a scan of the whole stream for every cutting
exactly when the maximum is held by a heartbeat of at most 513 bytes (or is 0).

**JSON.** `JsonWriter` is the streaming writer as a class over its stream, depth and comma flags,
proved against the call-by-call specification in `JsonCalls`. `JsonParser` is an RFC 8259 parser on
bytes, the independent reference. `JsonRoundTrip` and `JsonContext` connect the two: the text written
by any properly nested sequence of calls parses to the tree the calls spell. `Envelope` has the helpers
that write the parts of a result document, `EnvelopeReader` reads such parts back by their keys, and
`ResultEnvelope` is the whole document. Text is a sequence of bytes; one character stands for one byte.

**Rights between tasks.** `MachKernel` is an abstract kernel: namespaces, right types, user
references, queues, and dead names when a receive right is destroyed. It follows the accepted
contracts of `archive/Roadmap.md`. `MoveSend` and `SendOnceRun` are the two transfer probes as pairs of
step machines whose moves interleave freely; the environment picks names, listings, byte counts,
timeouts, interruptions, failed calls and the child's sudden death. A run is *undisturbed* when no
call timed out (the send-once child's second receive is meant to), failed for want of resources or
was interrupted in `waitpid`, and the child did not die before reporting. The method is the same for
both: in undisturbed runs the kernel and both records are functions of where the two programs are
(`MoveSendKernel`, `MoveSendSafety`, `SendOnceKernel`, `SendOnceSafety`), and the promises are read off
(`MoveSendTransfer`, `SendOnceTransfer`, `SendOnceLiveness`). `MoveSendProgress`, `MoveSendLiveness`,
`MoveSendMarks`, `MoveSendUnread`, `SendOnceProgress`, `SendOnceMarks`, `SendOnceReuse` and
`SendOnceEveryRun` (with the invariant in `SendOnceSides`) are about all runs, disturbed or not.
So are `MoveSendCleanup` and `SendOnceCleanup`: however a run is disturbed, the parent gives back all it
took (`Holdings` has its namespace layer by layer). `MoveSendVerdict` and `SendOnceVerdict` say, for any
results at all, exactly when each verdict is given.
`KernelChoices` shows that the kernel always finds names and listings, `KernelSizes` that namespaces stay small.
`PipeTransfer` has the two pipe loops by themselves; `DeadName` one case of the dead-name probe.

**Namespace baselines.** `Baseline` has the comparison, a one-directional nested loop that is documented
as equality; by a pigeonhole argument (`Pigeonhole`) it is equality exactly when the earlier snapshot
has no repeated entry.

**Small loops.** `AuxvWalk` (auxiliary vector), `HexRing` (static string buffers), `UnusedName` (search
for a free port name).

Where code and documentation differ, the model follows the code:

- The header comment of `nx_mach_utils.h` promises equal entries; the code checks one direction only.
  `Baseline.CompareExact` gives the exact condition.
- Twelve string buffers look like eleven further calls of lifetime; near the wrap of the 32-bit counter
  it is three. `HexRing.TwelveSlots` gives the exact condition.
- The move-send ladder has a rung for an unread child status. It decides only if a descriptor arrived and
  the record, although not read to its end, already shows the whole contract observed
  (`MoveSendVerdict.UnreadRungReached`); in every other case of an unread status with a descriptor an
  earlier rung declares a breach of contract (`MoveSendVerdict.UnreadVerdict`). A child killed between
  sending and reporting is enough (`MoveSendUnread.BreachIsReachable`).
- The capped scan of the auxiliary vector can give the wrong verdict exactly when AT_NULL lies beyond
  index 65 (`AuxvWalk.VerdictExact`, `AuxvWalk.Misled`).
- A heartbeat of more than 513 bytes can be missed by the reader (`CaptureReader.SinglesMiss`).
- The schema name is the one the code defines, "nx-r64z.macos-oracle.v1", not the one in older documents.

## Model

| member | source | states |
|---|---|---|
| `HeartbeatScan.FindAllIsMax` | scripts/op151/op155-capture-gdb.py:62-85 | for any text and start, the greedy left-to-right search finds matches whose maximum is the maximum over *all* places where a heartbeat stands, however they overlap in the text |
| `HeartbeatScan.NoTokenInside` | scripts/op151/op155-capture-gdb.py:62 | two heartbeats never overlap: none begins inside another |
| `HeartbeatScan.TokenInPrefix` | scripts/op151/op155-capture-gdb.py:80-86 | a heartbeat cut off at the end reads as a decimal prefix, whose value never exceeds the full one |
| `HeartbeatScan.TokenInSuffix` | scripts/op151/op155-capture-gdb.py:86 | what is found after dropping leading bytes stood there before; cutting on the left creates nothing |
| `HeartbeatScan.ScanMaxMonotone` | scripts/op151/op155-capture-gdb.py:81-84 | the maximum found in a prefix never exceeds that of the whole |
| `CaptureReader.Reader.Feed` | scripts/op151/op155-capture-gdb.py:66-86 | one received chunk: the new buffer, maximum and time stamp are those of the step function `Fed` on the old ones |
| `CaptureReader.ReceivedFaithful` | scripts/op151/op155-capture-gdb.py:65-86 | after any sequence of chunks no value was invented, no heartbeat of at most 513 bytes was missed, and the buffer is the stream's last 512 bytes |
| `CaptureReader.WindowRefinesScan` | scripts/op151/op155-capture-gdb.py:65-86 | for every stream whose heartbeats are at most 513 bytes and every cutting, after every chunk the reader's maximum equals that of a scan of the whole stream so far |
| `CaptureReader.WindowExact` | scripts/op151/op155-capture-gdb.py:80-86 | the reader agrees with the whole-stream scan for *every* cutting if and only if the maximum is 0 or is held by some heartbeat of at most 513 bytes |
| `CaptureReader.SinglesMiss` | scripts/op151/op155-capture-gdb.py:80-86 | the failing direction: fed byte by byte, the reader misses a maximum held only by longer heartbeats |
| `FreezeDetector.Watch` | scripts/op151/op155-capture-gdb.py:89-114 | the polling loop, interleaved with received chunks, gives the outcome of the reference function `Verdict` on the whole history |
| `FreezeDetector.FreezeSound` | scripts/op151/op155-capture-gdb.py:95-104 | a freeze is declared only at a poll within max_wait, when the whole-stream maximum is at least 380 and did not rise in the last 120 s |
| `FreezeDetector.PollDecides` | scripts/op151/op155-capture-gdb.py:93-112 | what a poll concludes, by the stream alone: time is up iff max_wait is reached; a freeze iff the maximum is at least 380 and its last rise over 120 s ago; abandoned iff it is above 0, below 380 and its last rise over 300 s ago; otherwise nothing |
| `FreezeDetector.AbandonSound` | scripts/op151/op155-capture-gdb.py:106-110 | a run is only abandoned at a poll within max_wait, with a maximum above 0 and below 380 that has not risen for over 300 s |
| `FreezeDetector.AbandonDeclared` | scripts/op151/op155-capture-gdb.py:93-112 | the converse: a persisting stall below the gate is abandoned within one poll period after 300 s |
| `FreezeDetector.TimeoutSound` | scripts/op151/op155-capture-gdb.py:93-114 | time is only said to be up by a poll at or past max_wait |
| `FreezeDetector.NoFreezeBelowGate` | scripts/op151/op155-capture-gdb.py:97-110 | a stream without a heartbeat of at least 380 never gives a freeze, and a silent one is never abandoned |
| `FreezeDetector.StallDeclared` | scripts/op151/op155-capture-gdb.py:93-112 | a stall past the gate that persists while polls come at least every 5 s is declared within one poll period after the 120 s threshold |
| `FreezeDetector.EveryRunEnds` | scripts/op151/op155-capture-gdb.py:93-114 | a poll at or after max_wait leaves no run undecided |
| `FreezeDetector.VerdictSticks` | scripts/op151/op155-capture-gdb.py:93-114 | once decided, nothing later changes the outcome, so a run has exactly one of freeze, abandon and timeout |
| `ChurnProbe.Probe.Run` | findings/nx-r64z/dtrace/id025-watchpoint/op150-probe/op150-notify-churn-probe.c:16-54 | the program: output, counters, calls and exit status are those of the reference fold over the attempts |
| `ChurnProbe.Probe.Iterate` | findings/nx-r64z/dtrace/id025-watchpoint/op150-probe/op150-notify-churn-probe.c:26-48 | one iteration with its four early exits changes the state as the step function `Next` says |
| `ChurnProbe.EveryAttemptCounted` | findings/nx-r64z/dtrace/id025-watchpoint/op150-probe/op150-notify-churn-probe.c:25-48 | at every loop head iterations equal attempts, and equal failures plus full successes |
| `ChurnProbe.OneCancelEach` | findings/nx-r64z/dtrace/id025-watchpoint/op150-probe/op150-notify-churn-probe.c:30-41 | every successful registration is posted to once, then checked at most once, then cancelled once, before the next registration, in every run |
| `ChurnProbe.CallsCounted` | findings/nx-r64z/dtrace/id025-watchpoint/op150-probe/op150-notify-churn-probe.c:30-41 | how often each library call is made: one registration try an attempt, one post and one cancel a registration, one check if the post worked |
| `ChurnProbe.FailuresCounted` | findings/nx-r64z/dtrace/id025-watchpoint/op150-probe/op150-notify-churn-probe.c:30-42 | the failure counter is the number of attempts of which some call failed, the cancel included, and is positive iff there is one |
| `ChurnReport.TerminalCounts` | findings/nx-r64z/dtrace/id025-watchpoint/op150-probe/op150-notify-churn-probe.c:52-54 | read field by field, the last line of every output gives the number of attempts, of failures and the duration |
| `ChurnReport.BeatCounts` | findings/nx-r64z/dtrace/id025-watchpoint/op150-probe/op150-notify-churn-probe.c:45-48 | every heartbeat is a line of its own that gives the attempts and the failures so far |
| `ChurnProbe.OutputShowsBeats` | findings/nx-r64z/dtrace/id025-watchpoint/op150-probe/op150-notify-churn-probe.c:45-51 | the only heartbeats in the output are the printed ones, each a positive multiple of 100 with a fully successful iteration, in full |
| `ChurnProbe.GateNeedsBeat` | findings/nx-r64z/dtrace/id025-watchpoint/op150-probe/op150-notify-churn-probe.c:45-48 | composed with the reader over any cutting of any prefix of the output: the 380 gate opens only if a heartbeat of at least 400 has begun to arrive |
| `ChurnProbe.BeatOpensGate` | findings/nx-r64z/dtrace/id025-watchpoint/op150-probe/op150-notify-churn-probe.c:45-48 | and it is open once such a heartbeat has fully arrived |
| `JsonRoundTrip.EscapeReads` | macos-validation/probes/common/nx_json.c:32-56 | the string grammar of RFC 8259 section 7 reads the escaped text back as the input and stops at the first unescaped quote |
| `JsonRoundTrip.EscapedIsPlain` | macos-validation/probes/common/nx_json.c:39-55 | escaped text holds no byte below 0x20, no unescaped quote (one after an even number of backslashes), and ends with no backslash open |
| `JsonRoundTrip.ClosingQuoteIsFirst` | macos-validation/probes/common/nx_json.c:38-56 | whatever follows, the first unescaped quote of an emitted string is its closing one |
| `JsonRoundTrip.EscapeInjective` | macos-validation/probes/common/nx_json.c:32-56 | different strings have different escaped texts |
| `JsonRoundTrip.RoundTrip` | macos-validation/probes/common/nx_json.c:58-149 | for every tree, parsing its rendering by the RFC 8259 grammar gives back exactly that tree, with nothing left over |
| `JsonRoundTrip.LineEndIgnored` | macos-validation/probes/foundation/smoke.c:175-176 | a line end after a document changes nothing |
| `JsonCalls.BoundsExact` | macos-validation/probes/common/nx_json.c:16-107 | for every sequence of calls, all accesses to the 32 comma flags stay in bounds if and only if no key or value is written at a depth above 31 |
| `JsonContext.CallsReflect` | macos-validation/probes/common/nx_json.c:16-149 | for every sequence of calls that nests properly, output, depth and comma flags are exactly those of the tree built so far: one separator between neighbours, none elsewhere, no flag left over from a closed container |
| `JsonContext.WriterRoundTrip` | macos-validation/probes/common/nx_json.c:58-149 | every complete sequence of calls, in whatever order it was made, writes text that parses to the tree it spells |
| `JsonContext.HeightIsBound` | macos-validation/probes/common/nx_json.c:16-107 | writing a tree in tree order stays within the 32 comma flags if and only if its height is at most 32 |
| `JsonContext.DocumentRoundTrip` | macos-validation/probes/common/nx_json.c:58-149 | driving the writer through a tree in tree order succeeds if and only if its height is at most 32, and then writes text that an RFC 8259 parser reads back as that tree |
| `JsonContext.CopyLikeValue` | macos-validation/probes/common/nx_env.c:9-27 | copying a file in value position leaves depth and comma flags as writing any value there does |
| `JsonWriter.Writer.BeginObject` | macos-validation/probes/common/nx_json.c:58-66 | opens an object: the new writer state is that of the call's specification, and the tree position moves accordingly |
| `JsonWriter.Writer.EndObject` | macos-validation/probes/common/nx_json.c:68-75 | closes an object: the new writer state is that of the call's specification, and the tree position moves accordingly |
| `JsonWriter.Writer.BeginArray` | macos-validation/probes/common/nx_json.c:77-85 | opens an array: the new writer state is that of the call's specification, and the tree position moves accordingly |
| `JsonWriter.Writer.EndArray` | macos-validation/probes/common/nx_json.c:87-94 | closes an array: the new writer state is that of the call's specification, and the tree position moves accordingly |
| `JsonWriter.Writer.Key` | macos-validation/probes/common/nx_json.c:96-107 | writes a key and suppresses the next comma: the new writer state is that of the call's specification, and the tree position moves accordingly |
| `JsonWriter.Writer.String` | macos-validation/probes/common/nx_json.c:109-117 | writes a string value: the new writer state is that of the call's specification, and the tree position moves accordingly |
| `JsonWriter.Writer.Number` | macos-validation/probes/common/nx_json.c:119-133 | writes a signed or unsigned number: the new writer state is that of the call's specification, and the tree position moves accordingly |
| `JsonWriter.Writer.Boolean` | macos-validation/probes/common/nx_json.c:135-141 | writes a boolean: the new writer state is that of the call's specification, and the tree position moves accordingly |
| `JsonWriter.Writer.Nothing` | macos-validation/probes/common/nx_json.c:143-149 | writes null: the new writer state is that of the call's specification, and the tree position moves accordingly |
| `JsonWriter.Writer.EmitEscaped` | macos-validation/probes/common/nx_json.c:32-56 | the byte loop appends exactly the escaped string, and nothing for NULL |
| `JsonWriter.Writer.CopyFile` | macos-validation/probes/common/nx_env.c:9-27 | appends the file's bytes and sets the comma flag of the present level |
| `Envelope.EmitHeader` | macos-validation/probes/common/nx_result.c:34-55 | adds exactly the header members with their values, absent references as null |
| `Envelope.EmitCleanup` | macos-validation/probes/common/nx_result.c:57-67 | adds the cleanup member, missing notes as the empty string |
| `Envelope.EmitReturn` | macos-validation/probes/common/nx_result.c:69-86 | adds one return object whose errno is null exactly when absent |
| `Envelope.EmitRightDelta` | macos-validation/probes/common/nx_result.c:88-126 | adds one delta object whose four counts are null exactly when negative |
| `Envelope.EmitEmptyMessage` | macos-validation/probes/common/nx_result.c:128-154 | adds the empty message object |
| `EnvelopeReader.DeltaByKey` | macos-validation/probes/common/nx_result.c:88-126 | each of the eight keys of a written delta, looked up by name, holds the argument it is named for, a count null exactly when negative |
| `EnvelopeReader.ReturnByKey` | macos-validation/probes/common/nx_result.c:69-86 | so do the four keys of a return, errno null exactly when absent |
| `EnvelopeReader.CleanupByKey` | macos-validation/probes/common/nx_result.c:57-67 | and the two of the cleanup object |
| `EnvelopeReader.CrossReferenceByKey` | macos-validation/probes/common/nx_result.c:48-52 | and the two cross references, null exactly for a null pointer |
| `EnvelopeReader.StatusByText` | macos-validation/probes/common/nx_result.c:7-17 | the status written is the text of that status and of no other |
| `EnvelopeReader.ClassByText` | macos-validation/probes/common/nx_result.c:19-32 | so is the semantic class |
| `Envelope.EmitFallback` | macos-validation/probes/common/nx_env.c:29-81 | writes the fixed fallback object as one value |
| `Envelope.EmitEnvironment` | macos-validation/probes/common/nx_env.c:83-94 | adds the environment member: the file's value if there is a readable file, else the fallback |
| `ResultEnvelope.EmitResult` | macos-validation/probes/foundation/smoke.c:103-176 | for any strings and any number of returns and deltas, the text of the whole envelope parses to one value, and in that value every key holds what the result has for it, looked up by name; provided a spliced file holds one value |
| `Baseline.Compare` | macos-validation/probes/common/nx_mach_utils.c:58-98 | the nested loops answer true exactly when both calls are the unsupported gap, or both are valid, counts agree and every earlier entry is among the later ones; and what the difference is |
| `Baseline.MatchIsEquality` | macos-validation/probes/common/nx_mach_utils.c:75-97 | with distinct earlier entries the one-directional check is equality of the two sets of entries |
| `Baseline.CompareExact` | macos-validation/probes/common/nx_mach_utils.h:100-105 | the documented equality holds against every later snapshot if and only if the earlier one repeats no entry |
| `Baseline.RepetitionMisleads` | macos-validation/probes/common/nx_mach_utils.c:83-95 | the failing family: for any snapshot with a repeated entry, a different namespace that is taken for equal |
| `Baseline.CompareIsEquivalence` | macos-validation/probes/common/nx_mach_utils.c:45-98 | on snapshots a kernel takes the check is reflexive, symmetric and transitive, and a gap only equals a gap |
| `Baseline.Difference` | macos-validation/probes/common/nx_mach_utils.c:75 | the difference of the two counts as ints is the wrapped difference, and zero exactly when they are equal |
| `UnusedName.FindNonexistent` | macos-validation/probes/m2/dead_name_descriptor_right.c:153-166 | the result is one of the names tried, and is outside the namespace exactly when some name tried is |
| `UnusedName.CandidatesDistinct` | macos-validation/probes/m2/dead_name_descriptor_right.c:156-164 | the 1024 names tried are distinct and the additions never overflow 32 bits |
| `UnusedName.SmallNamespaceHasFreeName` | macos-validation/probes/m2/dead_name_descriptor_right.c:153-166 | any namespace of fewer than 1024 names leaves one of the names tried free |
| `DeadName.Case.Run` | macos-validation/probes/m2/dead_name_descriptor_right.c:168-272 | on a contract-obeying kernel the dead-name case is always accepted with the namespace unchanged; the nonexistent-name case exactly if one of the names tried is unused |
| `DeadName.Case.Exchange` | macos-validation/probes/m2/dead_name_descriptor_right.c:200-257 | a dead source is consumed and delivered, a nonexistent one refused without a message; either way the namespace is as before the source was made |
| `DeadName.Case.Release` | macos-validation/probes/m2/dead_name_descriptor_right.c:259-271 | the source is already gone, the service port goes, and the snapshots match |
| `DeadName.AcceptedExactly` | macos-validation/probes/m2/dead_name_descriptor_right.c:274-318 | for any record of a case whatever the kernel answered: accepted iff listings, surrounding calls, source before, message and source after are as the contract has them |
| `DeadName.AcceptedMeansUnchanged` | macos-validation/probes/m2/dead_name_descriptor_right.c:303-318 | an accepted case with an honest comparison has an unchanged namespace |
| `PipeTransfer.WriteFull` | macos-validation/probes/m2/descriptor_move_send.c:181-200 | for every pattern of short counts and interruptions: true means all bytes went out in order, false a proper prefix and that a write was refused; short counts and interruptions alone always end in true |
| `PipeTransfer.ReadFull` | macos-validation/probes/m2/descriptor_move_send.c:202-221 | true exactly when the buffer is filled; it then holds the next bytes in order, and otherwise a prefix of them with the rest untouched, and a read was refused |
| `PipeTransfer.Report` | macos-validation/probes/m2/descriptor_move_send.c:366-366 | written and read whole, the status record arrives as it was, if and only if neither call was refused |
| `PipeTransfer.WordsOfBytes` | macos-validation/probes/m2/descriptor_move_send.c:61-92 | a record of words is determined by its bytes |
| `MachKernel.DeallocateUndoesPlusSend` | archive/Roadmap.md:102-102 | obtaining a send right and one deallocate leave a namespace as it was |
| `MachKernel.DeallocateTakesOne` | macos-validation/probes/m2/descriptor_move_send.c:526-529 | deallocate takes exactly one user reference from a name that has some, and nothing else; otherwise it changes nothing |
| `MachKernel.TypeShowsRights` | macos-validation/probes/m2/descriptor_move_send.c:564-572 | for whatever a name denotes, the mask tests on its type tell whether it holds send rights, or a send-once right |
| `MachKernel.TypeBits` | macos-validation/probes/m2/descriptor_move_send.c:159-163 | the two mask tests look at bits 16 and 18, whatever else the mask shows |
| `MachKernel.ListingsMatch` | macos-validation/probes/common/nx_mach_utils.c:13-26 | listings of one namespace in any two orders match, and so do two unsupported calls |
| `MachKernel.MatchingListings` | macos-validation/probes/common/nx_mach_utils.c:58-98 | listings that match are of namespaces with the same names of the same types |
| `MachKernel.Sent` | archive/Roadmap.md:95-117 | a message that is not refused, to a queue of any length with room: what is consumed and what is queued, behind all others |
| `MachKernel.Refused` | macos-validation/probes/m2/descriptor_move_send.c:288-293 | a message goes out if and only if destination and descriptor name rights and there is room; otherwise nothing changes |
| `MoveSendVerdict.PassIsContract` | macos-validation/probes/m2/descriptor_move_send.c:546-687 | for arbitrary results, PASS if and only if the set-up worked, the sender lost its one right, the receiver gained a usable one, and both cleaned up |
| `MoveSendVerdict.PassMeansUnchanged` | macos-validation/probes/m2/descriptor_move_send.c:350-364 | with a truthful child PASS implies every child call worked and both tasks' snapshots are equal sets or both the unsupported gap, never one of each |
| `MoveSendVerdict.VerdictByObservation` | macos-validation/probes/m2/descriptor_move_send.c:546-687 | for arbitrary results, by what was observed: exactly one of PROBE_FAILURE, FAIL of the contract, FAIL with class probe_failure, and PASS, each if and only if its condition on the observations holds |
| `MoveSendVerdict.ExitSaysUnchanged` | macos-validation/probes/m2/descriptor_move_send.c:350-364 | the child reports zero if and only if its calls worked and its namespace is unchanged |
| `MoveSendVerdict.BreachNeedsDelivery` | macos-validation/probes/m2/descriptor_move_send.c:594-687 | FAIL is only said when a descriptor arrived in a working set-up |
| `MoveSendVerdict.UnreadVerdict` | macos-validation/probes/m2/descriptor_move_send.c:546-634 | for every record left unread, blank or half read: the verdict blames the contract if and only if a descriptor arrived and the record does not already show the contract observed in full; it is never PASS |
| `MoveSendVerdict.UnreadRungReached` | macos-validation/probes/m2/descriptor_move_send.c:594-634 | the rung for an unread status decides if and only if a descriptor arrived and the unread record shows the loss and the use observed in full |
| `MoveSendVerdict.UnreadStatusIsABreach` | macos-validation/probes/m2/descriptor_move_send.c:626-634 | the blank record: a breach of the sender's type whenever a descriptor arrived |
| `MoveSendUnread.DeathIsABreach` | macos-validation/probes/m2/descriptor_move_send.c:464-634 | in every run in which the child died with nothing written after the descriptor arrived, the verdict at the end is that breach |
| `MoveSendUnread.BreachIsReachable` | macos-validation/probes/m2/descriptor_move_send.c:223-634 | there is a run in which the child is killed between sending and reporting, nothing else goes wrong, and the verdict is FAIL, a breach of contract |
| `MoveSend.RecordRoundTrip` | macos-validation/probes/m2/descriptor_move_send.c:61-92 | the status record, thirty words, is determined by its bytes |
| `MoveSendProgress.StepAdvances` | macos-validation/probes/m2/descriptor_move_send.c:223-541 | every move of every disturbed or undisturbed run keeps the control invariant (pipe contents are the record's bytes in order, open ends, names left) and brings the end closer |
| `MoveSendProgress.EveryRunEnds` | macos-validation/probes/m2/descriptor_move_send.c:223-541 | no run makes more than 279 moves and one for each interruption |
| `MoveSendLiveness.NoCircularWait` | macos-validation/probes/m2/descriptor_move_send.c:464-524 | for every pipe capacity the calls without a timeout never wait for each other in a circle, early child exit included |
| `MoveSendLiveness.NoBrokenPipe` | macos-validation/probes/m2/descriptor_move_send.c:366-519 | nobody writes to a pipe without a reader |
| `MoveSendLiveness.ParentGoesUnlessBlocked` | macos-validation/probes/m2/descriptor_move_send.c:374-541 | the parent can take its next step, with nobody killed and nothing failing, exactly if it is not done and not waiting for the child |
| `MoveSendLiveness.ChildGoesUnlessBlocked` | macos-validation/probes/m2/descriptor_move_send.c:223-372 | the child can take its next step exactly if it lives and does not wait for room in the pipe |
| `MoveSendLiveness.Progress` | macos-validation/probes/m2/descriptor_move_send.c:223-541 | in every run, however disturbed so far, one of the programs can take its next step by itself if and only if the run is not finished |
| `MoveSendLiveness.DeadEndIsFinish` | macos-validation/probes/m2/descriptor_move_send.c:464-541 | a run in which neither program can take a step has the parent at its end and the child, if there was one, gone |
| `MoveSendLiveness.FinishesByItself` | macos-validation/probes/m2/descriptor_move_send.c:223-541 | every run extends to a finished one by steps of the two programs alone |
| `MoveSendKernel.AtReceive` | macos-validation/probes/m2/descriptor_move_send.c:464-487 | receiving the descriptor adds one send right with one reference to the parent, under a new name |
| `MoveSendKernel.AtSend` | macos-validation/probes/m2/descriptor_move_send.c:274-298 | sending moves the child's one send right into the message; the receive right stays |
| `MoveSendKernel.AtVerify` | macos-validation/probes/m2/descriptor_move_send.c:494-516 | the verification message is sent without consuming the right |
| `MoveSendKernel.AtDestroyCargo` | macos-validation/probes/m2/descriptor_move_send.c:334-337 | destroying the cargo port turns the parent's right into a dead name and changes nothing else |
| `MoveSendKernel.AtDeallocate` | macos-validation/probes/m2/descriptor_move_send.c:526-529 | one deallocate of the dead name succeeds and restores the namespace |
| `MoveSendSafety.CalmStep` | macos-validation/probes/m2/descriptor_move_send.c:223-541 | every undisturbed move leads from the state its two places determine to the next such state |
| `MoveSendMarks.DisturbedDoesNotPass` | macos-validation/probes/m2/descriptor_move_send.c:546-687 | a timeout, failed call, interrupted wait or early death leaves a mark for which the verdict is not PASS |
| `MoveSendTransfer.OneSendRight` | archive/Roadmap.md:95-104 | in every undisturbed run and interleaving there is exactly one send right for the cargo port from its creation to the port's death, in exactly one of child, message and parent, with one reference |
| `MoveSendTransfer.InspectedBeforeDestroyed` | macos-validation/probes/m2/descriptor_move_send.c:474-516 | while the parent inspects and uses the right it is alive, and the child has not passed its receive call |
| `MoveSendTransfer.OneDeallocateSuffices` | archive/Roadmap.md:102-102 | the parent's one deallocate always meets the dead name with one reference, succeeds and restores the namespace |
| `MoveSendTransfer.EndsAtBaseline` | archive/Roadmap.md:95-104 | every undisturbed run that finishes has the parent's namespace, queues and bootstrap port of the start, clean reports, and PASS |
| `MoveSendTransfer.ChildAtBaseline` | macos-validation/probes/m2/descriptor_move_send.c:345-371 | when the child reports, its namespace is the one it was born with |
| `MoveSendTransfer.VerdictIsExact` | macos-validation/probes/m2/descriptor_move_send.c:546-687 | a finished run says PASS if and only if nothing disturbed it |
| `MoveSendTransfer.CanFinishUndisturbed` | macos-validation/probes/m2/descriptor_move_send.c:223-541 | every undisturbed run can be carried on to PASS without a timeout ever firing |
| `MoveSendTransfer.PassIsReachable` | macos-validation/probes/m2/descriptor_move_send.c:374-541 | there is such a run from a bare kernel |
| `MoveSendCleanup.NoLeakEver` | macos-validation/probes/m2/descriptor_move_send.c:374-544 | in every run that ends, whatever timed out or failed and whenever the child died, the parent has the namespace and bootstrap port of the start, and its comparison says so |
| `SendOnceVerdict.PassIsContract` | macos-validation/probes/m2/send_once_descriptor.c:623-788 | for arbitrary results, PASS if and only if the set-up worked, the child lost its one send-once right, the parent could use it once and only once, and both cleaned up |
| `SendOnceVerdict.VerdictByObservation` | macos-validation/probes/m2/send_once_descriptor.c:623-788 | for arbitrary results, by what was observed: exactly one of PROBE_FAILURE (set-up, the child's own extraction or send, status, final listing), FAIL of the contract, FAIL with class probe_failure, and PASS, each if and only if its condition holds |
| `SendOnceVerdict.ExitSaysUnchanged` | macos-validation/probes/m2/send_once_descriptor.c:392-408 | the child reports zero if and only if its calls went as they should and its namespace is unchanged |
| `SendOnceVerdict.PassMeansUnchanged` | macos-validation/probes/m2/send_once_descriptor.c:392-408 | with a truthful child PASS implies that and unchanged namespaces of both tasks |
| `SendOnceKernel.AtExtract` | macos-validation/probes/m2/send_once_descriptor.c:281-290 | extraction makes one send-once right under a new name |
| `SendOnceKernel.AtSend` | macos-validation/probes/m2/send_once_descriptor.c:300-323 | sending moves the send-once right into the message |
| `SendOnceKernel.AtFirst` | macos-validation/probes/m2/send_once_descriptor.c:544-563 | the first use consumes the right and queues one message |
| `SendOnceKernel.AtUsed` | macos-validation/probes/m2/send_once_descriptor.c:565-591 | afterwards the name is gone; a second use is refused with MACH_SEND_INVALID_DEST and changes nothing |
| `SendOnceKernel.AtDestroyCargo` | macos-validation/probes/m2/send_once_descriptor.c:378-381 | the death of the cargo port leaves no trace in the parent |
| `SendOnceSafety.CalmStep` | macos-validation/probes/m2/send_once_descriptor.c:234-617 | every undisturbed move leads from the state its two places determine to the next such state |
| `SendOnceTransfer.OneSendOnceRight` | archive/Roadmap.md:106-117 | in every undisturbed run and interleaving exactly one send-once right exists from extraction to first use, in exactly one of child, message and parent; none before and after |
| `SendOnceTransfer.OneVerification` | macos-validation/probes/m2/send_once_descriptor.c:333-366 | the cargo queue never holds more than the one verification message, and the child's second receive times out |
| `SendOnceTransfer.SecondUseChangesNothing` | macos-validation/probes/m2/send_once_descriptor.c:573-591 | wherever the child is by then, the second use fails and no namespace or queue changes |
| `SendOnceTransfer.EndsAtBaseline` | macos-validation/probes/m2/send_once_descriptor.c:603-788 | every undisturbed run that reaches its end is back at the start, with PASS |
| `SendOnceTransfer.ChildAtBaseline` | macos-validation/probes/m2/send_once_descriptor.c:383-409 | when the child reports, its namespace is the one it was born with |
| `SendOnceLiveness.CalmCanMove` | macos-validation/probes/m2/send_once_descriptor.c:514-601 | in every undisturbed run that is not at its end one of the programs can move on without a disturbance: no circular wait |
| `SendOnceLiveness.CanFinishUndisturbed` | macos-validation/probes/m2/send_once_descriptor.c:234-617 | every undisturbed run can be carried on to PASS |
| `SendOnceLiveness.PassIsReachable` | macos-validation/probes/m2/send_once_descriptor.c:412-617 | there is such a run from a bare kernel |
| `SendOnceMarks.VerdictIsExact` | macos-validation/probes/m2/send_once_descriptor.c:623-788 | a run at its end says PASS if and only if nothing disturbed it |
| `SendOnceReuse.NeverUsedTwice` | archive/Roadmap.md:106-117 | in no run at all, timeouts and sudden death included, do both uses succeed |
| `SendOnceEveryRun.AtMostOneRight` | archive/Roadmap.md:106-117 | in every run, disturbed or not, there is never more than one send-once right for the cargo port, in namespaces and messages together |
| `SendOnceEveryRun.AtMostOneMessage` | archive/Roadmap.md:106-117 | in every run the cargo queue holds at most one message, and over the whole run at most one ever arrives there, each by a use that succeeded |
| `SendOnceProgress.EveryRunEnds` | macos-validation/probes/m2/send_once_descriptor.c:234-617 | no run, disturbed or not, makes more than 41 moves |
| `SendOnceProgress.Progress` | macos-validation/probes/m2/send_once_descriptor.c:234-617 | in every run, however disturbed so far, one of the programs can take its next step by itself if and only if the run is not finished |
| `SendOnceProgress.FinishesByItself` | macos-validation/probes/m2/send_once_descriptor.c:234-617 | every run extends to a finished one by steps of the two programs alone |
| `SendOnceCleanup.NoLeakEver` | macos-validation/probes/m2/send_once_descriptor.c:412-617 | in every run that ends, whatever timed out or failed and whenever the child died, the parent has the namespace and bootstrap port of the start, and its comparison says so |
| `HexRing.HexFits` | macos-validation/probes/m1/header_copy_send_accounting.c:43-43 | every number's text fits its 32-byte buffer and can be read back |
| `HexRing.HexBuffers.Hex32` | macos-validation/probes/m1/header_copy_send_accounting.c:36-45 | a call changes one slot and the counter, as the reference step says |
| `HexRing.EightSlots` | macos-validation/probes/m1/header_copy_send_accounting.c:36-45 | in every run a returned string survives seven further calls, counter wrap-around included |
| `HexRing.TwelveSlots` | macos-validation/probes/m2/dead_name_descriptor_right.c:72-81 | a returned string survives eleven further calls if and only if it was not made by one of the last four calls before the counter wraps |
| `HexRing.Survives` | macos-validation/probes/m2/dead_name_descriptor_right.c:72-81 | the exact number of further calls a string survives: 7 of 8 slots; of 12 slots 11, 15 shortly before the wrap and 3 in the last four calls |
| `HexRing.Overwritten` | macos-validation/probes/m2/dead_name_descriptor_right.c:72-81 | one call more and the slot holds the newest text |
| `AuxvWalk.WalkEnviron` | findings/nx-r64z/dtrace/auxv-confirm/auxv-probe.c:143-153 | the walk stops one past the first zero word and counts the words before it |
| `AuxvWalk.Scan` | findings/nx-r64z/dtrace/auxv-confirm/auxv-probe.c:180-214 | the scan reads at most 65 entries, never entry 65, and each finding is the last matching one of those it read |
| `AuxvWalk.Probe` | findings/nx-r64z/dtrace/auxv-confirm/auxv-probe.c:119-241 | the whole program, with its NULL and mismatch branches |
| `AuxvWalk.WalkLandsOnVector` | findings/nx-r64z/dtrace/auxv-confirm/auxv-probe.c:143-153 | on every initial process stack the walk lands on entry 0 of the vector |
| `AuxvWalk.StatusIsExact` | findings/nx-r64z/dtrace/auxv-confirm/auxv-probe.c:119-178 | the status for any two pointers: both missing, the global one missing, equal to the word after the first zero from environ, or not; each iff |
| `AuxvWalk.ShownIsSigned` | findings/nx-r64z/dtrace/auxv-confirm/auxv-probe.c:183-222 | the two values printed as signed are the found ones modulo the size of their C type, and in its range |
| `AuxvWalk.StackReport` | findings/nx-r64z/dtrace/auxv-confirm/auxv-probe.c:119-241 | on every initial process stack the report agrees, counts min(entries, 65), and finds the last matching entries among those |
| `AuxvWalk.CappedVerdict` | findings/nx-r64z/dtrace/auxv-confirm/auxv-probe.c:180-232 | the program's report on any initial stack with AT_NULL at index 65 or before: verdict, count and every finding are those of the whole vector |
| `AuxvWalk.VerdictExact` | findings/nx-r64z/dtrace/auxv-confirm/auxv-probe.c:208-232 | the printed verdict is right however the vector goes on after its first entries if and only if AT_NULL lies at index 65 or before |
| `AuxvWalk.Misled` | findings/nx-r64z/dtrace/auxv-confirm/auxv-probe.c:208-232 | the failing family: every longer vector can be cut after index 65 and ended by one entry for which the printed verdict is wrong |
| `AuxvWalk.CapCanMislead` | findings/nx-r64z/dtrace/auxv-confirm/auxv-probe.c:208-213 | any 65 entries can be followed by one for which the capped verdict is wrong |

## Left out

- MoveSend: signals, `alarm` and wall-clock time are not modelled; a timeout is a free choice of the environment when the queue is empty, and the alarm that kills the child is one way to die suddenly.
- MoveSend: a right whose port dies while it is in a message arrives as MACH_PORT_DEAD; the contract does not list this, it only happens in disturbed runs, and no promise depends on it.
- MoveSend: the header bits and sizes in the child's record are free values, since the probe prints but does not judge them; those of the parent, dispositions and the printing of the result are not part of the model; nor are errors of `write`, `read` and `pipe` other than interruption, end of file and a failed `pipe`, nor the child's closing of the pipe's read end it inherits.
- SendOnceRun: the status record crosses the pipe whole, because the bytes would repeat what is proved for MoveSend.
- SendOnceTransfer.OneSendOnceRight: exactly one right, stated for undisturbed runs as the contract is; for all runs there is at most one (SendOnceEveryRun.AtMostOneRight). Notifications for send-once rights destroyed unused are not modelled.
- MachKernel: reference counts do not overflow, namespaces never fill up, no third task acts, and rights in destroyed messages vanish. Descriptor behaviour beyond the accepted contracts is not modelled.
- DeadName.Case.Run: when all 1024 names tried exist, the calls after the first query are not followed; the case is then rejected whatever they do. Printing a case is left out.
- Baseline.Compare: freeing the arrays is not modelled, and snapshots are values.
- CaptureReader.Reader: sockets, log files and the limit of Python's `int` on very long digit strings are not modelled.
- FreezeDetector.Watch: a chunk and a poll are each atomic; the finer interleaving of the reader's two assignments with the poll's two reads is not modelled, and the clock is monotone.
- FreezeDetector: what happens after a freeze (kgdb commands, bhyve, serial set-up) is not modelled.
- ChurnProbe.Probe: the iteration counter does not overflow; the gate theorems assume fewer than 2^31 iterations. How long calls and sleeps take is not modelled: the script of attempts says how many fit the duration.
- JsonParser: surrogate pairs in unicode escapes are not combined; the writer never produces them.
- ResultEnvelope.EmitResult: a loop over the returns and deltas stands for the probes' straight-line calls. The member lists of other probes (observations) are left out; they use the same writer calls.
- Envelope: opening the environment file is a parameter: either there is none, or its bytes.
- PipeTransfer.Pipe: end of file and errors other than EINTR look alike to the two loops, and in the model.
- AuxvWalk.Probe: printing the entries and their names is left out; the pointers it prints are indices.
- HexRing.HexBuffers: the body of `snprintf` is replaced by its specification for "0x%x".
- Enum-to-string tables of return codes and port types, the foundation, dispatch, XPC, ASL and Swift probes, and the other descriptor probes, which repeat the modelled ones or make straight-line calls, are left out.
- MoveSendVerdict.VerdictByObservation: (and the same in SendOnceVerdict) status and semantic class; of the notes only those named in the lemmas on unread records, because the rest is the wording of each check.
