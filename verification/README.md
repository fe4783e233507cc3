# proc17 QA run protocol: a Dafny model

This project models the native core of the proc17 QA runner and a few of its neighbours, and proves what they are
for. Three processes cooperate in a run: the supervisor, the namespace controller and the candidate. They talk over a
public framed pipe, a private status channel and a private 572-byte report; a launcher reads the pipe incrementally
and may conclude a verdict from it. Below that lie a streaming SHA-256 (a second one is written in Lua), a capped Lua
allocator with shared telemetry, a recursive scratch inventory, transactional file creation and read-back, a UTF-8
check, and a JSON printer and parser.

The main results:

- **The launcher reports a RESULT exactly for a contained run**: one STARTED frame and one RESULT frame, both canonical
  encodings with the expected identity and the same source stage, the pipe ended, the supervisor reaped after a clean
  exit. For every byte stream, every read split and every order of events (`Collect.ResultExact`,
  `Collect.DecideExact`, `Collect.Collector.Run`), on top of a decoder that accepts exactly what the encoder emits
  (`Wire.DecodeRunExact`) and a reader whose whole state does not depend on the pieces (`Launcher.Reader.Feed`).
- **In every interleaving of the three processes** the pipe holds nothing, a pre-start ERROR, STARTED, or STARTED and
  one terminal; candidate Lua starts only after STARTED, READY, the clock and the release; and the launcher, fed that
  pipe, never fails (`RunProtocol.PipeLanguage`, `RunProtocol.LuaHoldsNoPipe`, `RunProtocol.LuaOnlyAfterRelease`,
  `RunProtocol.LauncherFollows`). The steps are what the writers do, and every record that a builder makes is published
  by some run (`RunCoverage.PublishTakesSteps`, `RunCoverage.ResultReached`, `RunCoverage.ErrorReached`).
- **A published verdict is forced by the evidence published with it** (`Report.VerdictForced`, `Report.ReasonExact`,
  `Published.PublishedVerdictForced`); an accepted controller input reaches the launcher as that verdict, with every
  measurement, and an accepted error input as that error (`Published.ControllerToLauncher`,
  `Published.ErrorToLauncher`, `Published.CutShortToLauncher`).
- **The controller's poll loop**, for every sequence of poll outcomes, ends exactly where these lead it, leaves only
  with a first cause that is backed by what it has seen, builds its report with exactly the seven controller marks, and
  kills at most once and never after the reap
  (`Controller.Controller.Loop`, `Controller.TurnKeeps`, `Controller.Controller.Conclude`,
  `Controller.RunForcesCause`).
- **SHA-256**: any chunking equals the definition of FIPS 180-4, and so does the Lua implementation
  (`Sha256.HashChunks`, `LuaDigest.LuaSha256`).
- **The allocator** conserves: its counter is the sum of the live block sizes; a concurrent snapshot always reads
  current <= peak <= ceiling. That a snapshot is never refused is false; it can be refused exactly while nothing has
  been denied yet (`Telemetry.MidDenialRefused`, `Telemetry.RefusalExact`).
- **Files**: creation never touches an existing target or shows a partial one; a read returns one version, whatever
  others do between its system calls.
- **Scratch**: complete exactly for conforming trees, in any listing order. **UTF-8**: exact. **JSON**: round trip.

## How it is built

Fixed-width integers are subset types of `int`; wrap-around is written out. Bytes are numbers below 256 and buffers are
sequences or arrays of them. Objects that the code updates in place are classes, proved against functions on values;
loops are loops. System calls are parameters: scripts of poll and read outcomes, records of success flags, or functions
from a step number to an outcome. Some definitions (the digest, the payload validator, the report validators) are seen
by other proofs only through a record of functions with the same values, so that these proofs do not open them.

| file | content |
|---|---|
| Wrappers, Bits, Bytes, Hex | options, bit gates on numbers, big-endian fields, buffers, hexadecimal |
| Sha256, LuaDigest, Stream | the two hash implementations, the stream observer |
| Wire, Launcher, Collect | frames, the incremental reader, the launcher's conclusions |
| Phase, Status, Records, Report | phase state and epochs, status packets, measurement records, the private report |
| Controller, Supervisor, Published | the poll loop, report collection, publication |
| RunProtocol, RunCoverage | whole runs as interleaved steps, and what these steps cover |
| Allocator, Telemetry | accounting per call, atomic steps |
| Json, LuaTable, JsonText | trees and their text, Lua tables, the printer and parser as they run |
| Scratch, Utf8, CreateFile, ReadFile | the remaining cores |

Where code and prose of the repository differ, the code is followed. One such place: the status packet format by itself
lets kinds other than the three named ones pass, with sequence 0 (`Status.UnknownKindPasses`); `Status.KnownKind` gives
the exact condition, and every receiver checks the kind.

## Model

| member | source | states |
|---|---|---|
| Wire.DecodeEncode | native/proc17_qa_wire.h:181-217 | decoding an encoded frame gives kind, nonce and payload back |
| Wire.EncodeDecode | native/proc17_qa_wire.h:219-263 | whatever decodes is the encoding of what it decodes to |
| Wire.EncodeInto | native/proc17_qa_wire.h:181-217 | the in-place encoder writes exactly the specified frame at the start of the buffer, or nothing |
| Wire.DecodeFrame | native/proc17_qa_wire.h:219-263 | the decoder with its branch-free digest comparison computes the specified view |
| Wire.DecodeRunExact | native/proc17_qa_wire.h:533-562 | the run decoder accepts a frame as a view if and only if the run encoder emits that frame for the view's valid payload under the payload's own nonce |
| Wire.DecodeRunFrame | native/proc17_qa_wire.h:549-562 | the run decoder as executed agrees with that specification |
| Bytes.PutBE | native/proc17_qa_wire.h:124-144 | storing bytes from the last position backwards writes the big-endian field and changes nothing else |
| Bytes.ReadU64 | native/proc17_qa_wire.h:159-167 | the accumulating loop reads the big-endian value |
| Bytes.BytesZero | native/proc17_qa_wire.h:265-275 | the OR loop tells whether all bytes are zero |
| Bytes.FromToBE | native/proc17_qa_wire.h:124-167 | reading back a stored field gives the value modulo the field's range |
| Bytes.ToFromBE | native/proc17_qa_wire.h:124-167 | storing a value that was read gives the same bytes, so equal numbers mean equal bytes |
| Launcher.WfFeedAll | native/proc17_qa_launcher_v1.c:144-190 | for every input the buffered bytes stay within 4096 and below the length of the frame under way |
| Launcher.FailedSticks | native/proc17_qa_launcher_v1.c:149-157 | a failed machine stays exactly as it is |
| Launcher.FeedPiece | native/proc17_qa_launcher_v1.c:158-187 | buffering a piece up to the target at once is the same as byte by byte |
| Launcher.Reader.Feed | native/proc17_qa_launcher_v1.c:144-190 | the consuming loop over any piece reaches the state of the byte-by-byte reader, failure included |
| Launcher.Reader.AcceptFrame | native/proc17_qa_launcher_v1.c:75-142 | a complete frame is accepted exactly if it decodes and fits what was accepted before, and then recorded |
| Collect.Explain | native/proc17_qa_launcher_v1.c:75-190 | every machine that has not failed is explained by its input: accepted STARTED, accepted terminal, pending bytes |
| Collect.ResultExact | native/proc17_qa_launcher_v1.c:75-190 | for every byte stream, the machine holds a RESULT if and only if the stream is a contained run |
| Collect.DecideExact | native/proc17_qa_launcher_v1.c:432-442 | the decision is RESULT if and only if the stream is a contained run, the end was seen, the supervisor was reaped after a clean exit and no infrastructure error occurred; the RESULT frame itself is handed on |
| Collect.ErrorExact | native/proc17_qa_launcher_v1.c:105-141 | for every byte stream, the machine holds an ERROR if and only if the stream is one ERROR frame before a start, or STARTED and one terminal ERROR frame with the same stage |
| Collect.NothingExact | native/proc17_qa_launcher_v1.c:75-190 | the machine is between frames without a terminal if and only if the stream is empty or one accepted STARTED |
| Collect.OutcomeExact | native/proc17_qa_launcher_v1.c:197-260 | without infrastructure error each outcome is an iff over the stream: RESULT, ERROR, derived error for a run that ended early, and trusted invariant exactly for all else |
| Collect.ErrorFields | native/proc17_qa_launcher_v1.c:222-240 | an ERROR terminal carries the frame and its phase, class, code, stage and states |
| Collect.DerivedFields | native/proc17_qa_launcher_v1.c:243-258 | a derived error tells whether the run had started, and a crash exactly for the watchdog or an unclean exit |
| Collect.TerminalDecodes | native/proc17_qa_launcher_v1.c:216-221 | the second decoding of the retained frame never fails |
| Collect.Collector.OnTurn | native/proc17_qa_launcher_v1.c:366-430 | one poll turn moves exactly what the loop has observed: timer, then the pipe up to its stop unless masked, then the wait result unless known; fatal exactly for a failed poll or timer |
| Collect.Collector.Run | native/proc17_qa_launcher_v1.c:305-464 | for every sequence of poll outcomes the answer is what the turns, folded one by one, lead to: refusal, failure exactly without setup or after a fatal turn, polling exactly while child or pipe is open, else the decision on the stream they delivered, RESULT exactly for a contained run; one kill exactly if the watchdog fired, the protocol broke, or the observation was lost |
| Phase.PhaseState.ResolveEpoch | native/proc17_qa_controller.c:206-301 | a cause is claimed exactly if the valid observations name one distinct kind, with the greatest value and sequence 1; ambiguous or quiet epochs leave the phase unchanged |
| Phase.Tally | native/proc17_qa_controller.c:206-220 | the accumulation finds a conflict, silence, or the one kind and its maximum |
| Phase.StepKeeps | native/proc17_qa_phase.c:80-193 | every call keeps the invariant, only grows the mask and never changes a first cause |
| Phase.RunInv | native/proc17_qa_phase.c:173-193 | in every call sequence a first cause has sequence 1 |
| Phase.RunMonotone | native/proc17_qa_phase.c:80-193 | between any two moments the mask grows, the cause stays, attestation and authorisation stay |
| Phase.AttestedOnce | native/proc17_qa_phase.c:144-160 | attested if and only if some READY came while the state was still initial, and READY is accepted at most once |
| Phase.ReportReadyHistory | native/proc17_qa_phase.c:212-221 | report-ready implies that READY was accepted once, before any cause or finality mark |
| Status.DecodeExact | native/proc17_qa_status.c:74-122 | a packet decodes to a message under a context if and only if it is that message's encoding under it |
| Status.ForeignPacket | native/proc17_qa_status.c:96-122 | a packet for one identity and token decodes to nothing under another |
| Status.UnknownKindPasses | native/proc17_qa_status.c:25-37 | kind 9 with sequence 0 is encoded and decoded: the format alone does not confine the kind |
| Status.KnownKind | native/proc17_qa_status.c:25-37 | of a packet that decodes, the kind is one of the three exactly when its sequence field is not zero |
| Status.EncodeInto | native/proc17_qa_status.c:74-94 | the packet is written in place exactly as specified, or not at all |
| Status.Receive | native/proc17_qa_status.c:152-187 | a message is received exactly if the datagram is its encoding; anything else is idle, end or error |
| Status.AcceptReady | native/proc17_qa_status.c:189-198 | READY is accepted only as kind 1 with sequence 1 and moves the phase as observe-ready does |
| Records.StreamRecord | native/proc17_qa_stream.c:19-34 | the exact condition of the wire validator on a measurement's record, and that the measurement check asks in addition that hashed is the lesser of observed and limit |
| Records.EncodeStream | native/proc17_qa_stream.c:158-172 | encoding succeeds exactly for such measurements and writes that record |
| Records.EncodeResource | native/proc17_qa_report.c:174-193 | the resource record is valid exactly for a non-zero ceiling and a boolean denial flag |
| Records.ScratchRoundTrip | native/proc17_qa_scratch.c:392-429 | decoding undoes encoding, and exactly the valid measurements encode to valid records |
| Records.ScratchCanonical | native/proc17_qa_scratch.c:408-429 | a valid record is the encoding of what it decodes to |
| Report.ReasonExact | native/proc17_qa_report.c:81-172 | the evidence admits a reason if and only if it is the forced one and the amounts are there |
| Report.BuildResult | native/proc17_qa_report.c:204-288 | the builder accepts exactly the consistent inputs and fills the report byte by byte as laid out |
| Report.BuiltResultValid | native/proc17_qa_report.c:204-288 | every accepted input gives bytes the private result validator accepts |
| Report.VerdictForced | native/proc17_qa_report.c:367-500 | over all 572-byte records, a valid one has the reason that termination, crossing and denial force |
| Report.EvidenceDetermines | native/proc17_qa_report.c:367-500 | equal evidence means equal reasons; crossing with denial validates none; expected exit means code 0 and neither |
| Report.BuildError | native/proc17_qa_report.c:290-365 | the error builder accepts exactly the inputs in which the one observation that the subject names is missing |
| Report.BuiltErrorValid | native/proc17_qa_report.c:502-554 | every accepted error input gives bytes the private error validator accepts |
| Report.FinalizeExact | native/proc17_qa_report.c:571-693 | whatever is published is a valid payload with the expected identity; RESULT exactly for a valid matching result report, a clean exit and a complete cleanup; ERROR exactly for a valid matching error report after the same, with its code, or for such a result report after a cleanup cut short |
| Report.PayloadSays | native/proc17_qa_report.c:664-688 | the public payload carries the reason, termination, cause, streams, resources, scratch and stage of the report |
| Report.FinalizeFrame | native/proc17_qa_report.c:626-693 | the frame written decodes to that payload, and no frame is written when finalization refuses |
| Published.StartedWriter.EmitAndClose | native/proc17_qa_phase.c:94-142 | exactly one STARTED frame is written if and only if the writer becomes emitted, never a second one, and the descriptor is gone whatever happens |
| Published.StartedPayloadValid | native/proc17_qa_phase.c:115-124 | the STARTED payload is valid for a valid identity, a non-zero token and a valid stage |
| Published.PublishedAccepted | native/proc17_qa_launcher_v1.c:105-141 | the launcher accepts the published RESULT after the matching STARTED whenever the stage matches the expected source |
| Published.PublishedVerdictForced | native/proc17_qa_report.c:664-693 | the reason in a published RESULT is forced by the evidence in the same payload |
| Published.ControllerToLauncher | native/proc17_qa_report.c:204-288 | an accepted controller input is built, published and concluded as a RESULT that carries its first cause with value and sequence, its termination, both streams, resources, scratch and stage |
| Published.ErrorToLauncher | native/proc17_qa_report.c:290-365 | an accepted error input is built, published with its code after a clean exit and a complete cleanup, and concluded by the launcher as that ERROR |
| Published.CutShortToLauncher | native/proc17_qa_report.c:659-663 | an accepted result whose cleanup is missing something is published and concluded as an incomplete cleanup |
| Controller.Controller.OnTurn | native/proc17_qa_supervisor.c:1760-1866 | one turn leads exactly where its poll outcome says, or fails exactly for a failed poll, a second failing stream, a status channel fault, a bad timer, a failed wait, an invalid or ambiguous epoch, or a failed kill; the loop invariant is kept; at most one kill, none after the reap |
| Controller.TurnKeeps | native/proc17_qa_supervisor.c:1760-1866 | every turn keeps: one failed stream at most and it is the error, a reaped candidate left a cause, a running one was killed exactly if there is an error or a cause, and without error the first cause is backed by what was seen |
| Controller.Controller.Loop | native/proc17_qa_supervisor.c:1752-1866 | for every sequence of poll outcomes the loop ends how and where these, folded one by one, say; leaving normally means reaped, ended and a first cause with sequence 1 |
| Controller.Controller.Conclude | native/proc17_qa_supervisor.c:1867-1952 | without stream or scratch error the mask is exactly the seven controller bits; the result record carries the digests of the whole output and is written exactly if identities and digests are non-zero and what was still open after the loop agrees; an error record exactly when one observation is missing; each record is one the builder makes for this run |
| Controller.DrainEpoch | native/proc17_qa_supervisor.c:1584-1593 | the stream is where the reads lead it; the crossing is reported exactly in the epoch in which it happens |
| Controller.Controller.ReadStreams | native/proc17_qa_supervisor.c:1784-1805 | both streams are where the reads lead them, the epoch carries their totals and the crossings of this very turn; fails exactly when a second stream fails |
| Controller.Controller.Settle | native/proc17_qa_supervisor.c:1837-1865 | reap, epoch and kill lead exactly where wait result, epoch and signal result say, and fail exactly when these do |
| Controller.EpochWitnessed | native/proc17_qa_supervisor.c:1845-1849 | a cause claimed by an epoch is backed by what the loop has seen: an observer's bytes, the one denial, the consumed timer, or the reaped candidate's own end |
| Controller.EvidenceExact | native/proc17_qa_supervisor.c:1926-1951 | with a backed cause, the builder's evidence check comes down to: late reads stable, no unrelated crossing or denial, SIGKILL for a limit, the amounts |
| Controller.RunForcesCause | native/proc17_qa_supervisor.c:1557-1582 | the termination recorded from the wait status, the observers' crossings and the notified denial force the first cause |
| Supervisor.Collector.Collect | native/proc17_qa_supervisor.c:2011-2107 | for every sequence of poll outcomes: succeeds exactly if these, folded one by one, lead without failure to the end of the pipe after exactly 572 bytes and to the exit of the controller, which is then waited for; the report then holds those bytes |
| Supervisor.Publish | native/proc17_qa_supervisor.c:2298-2319 | the record is collected exactly if the poll outcomes say so; a frame is written exactly if it was, finalization allows something and the write succeeds; it is the frame allowed for the very bytes the controller wrote |
| RunProtocol.StepKeeps | native/proc17_qa_supervisor.c:1458-1527 | every step of every process keeps the run invariant |
| RunProtocol.PipeLanguage | native/proc17_qa_supervisor.c:2250-2319 | in every interleaving, and whatever candidate Lua writes to descriptors it still holds, the pipe is empty, a pre-start ERROR, STARTED, or STARTED and one fitting terminal |
| RunProtocol.LuaHoldsNoPipe | native/proc17_qa_phase.c:131-141 | while candidate Lua runs, neither it nor the controller holds the public pipe |
| RunProtocol.EndIsFinal | native/proc17_qa_supervisor.c:1696-1699 | once no process holds the pipe, its content never changes again |
| RunProtocol.LuaOnlyAfterRelease | native/proc17_qa_supervisor.c:1707-1750 | candidate Lua starts only after STARTED is on the pipe, READY accepted, the clock armed and the release authorised |
| RunProtocol.LauncherFollows | native/proc17_qa_launcher_v1.c:75-190 | the launcher, fed the pipe of any run with a matching stage, never fails and holds a terminal exactly when one was published |
| RunProtocol.TerminalMeansClean | native/proc17_qa_supervisor.c:1953-1960 | a published terminal after STARTED means a candidate that is gone, a whole record and a clean controller; a published RESULT carries the controller's first cause |
| RunProtocol.UncleanPublishesNothing | native/proc17_qa_report.c:585-589 | after an unclean controller exit no terminal is published, even if the record is whole |
| RunCoverage.EmitTakesStep | native/proc17_qa_phase.c:94-142 | the candidate's writer does to pipe and descriptor exactly what the run's emission step does |
| RunCoverage.PublishTakesSteps | native/proc17_qa_supervisor.c:2250-2319 | the supervisor's collection and publication put on the pipe exactly what the run's steps do |
| RunCoverage.RecordReached | native/proc17_qa_supervisor.c:1458-1527 | whatever record a builder makes after an epoch is published by some run as finalization allows |
| RunCoverage.ResultReached | native/proc17_qa_supervisor.c:1926-1951 | an accepted result is published by some run if and only if its cause has sequence 1 |
| RunCoverage.ErrorReached | native/proc17_qa_supervisor.c:1904-1924 | every accepted error input is published by some run, with its code |
| Stream.Observer.Consume | native/proc17_qa_stream.c:47-81 | observed counts all bytes, hashed the first limit bytes, the crossing is reported once; overflow fails without effect |
| Stream.Observer.Drain | native/proc17_qa_stream.c:83-132 | draining takes exactly the reads up to the end, a block, a fault, an overflow, the crossing or a full slice, and its result tells which |
| Stream.PullSays | native/proc17_qa_stream.c:83-132 | what a drain takes is all data up to where it stops; it reports the crossing exactly if the total crosses, the end exactly if it read it, and fails only for a cause |
| Stream.Observer.Snapshot | native/proc17_qa_stream.c:134-156 | the measurement is that of the bytes seen, available exactly after the end without failure |
| Stream.Observe | native/proc17_qa_stream.c:36-156 | for every script of reads the measurement depends on the bytes only: digest of the first min(observed, limit), crossing reported exactly once if longer |
| Sha256.FillSchedule | native/proc17_sha256.c:51-74 | the message schedule filled in place is that of section 6.2.2 of FIPS 180-4 |
| Sha256.Transform | native/proc17_sha256.c:51-114 | one call is the block function of section 6.2.2 of FIPS 180-4 |
| Sha256.Context.Update | native/proc17_sha256.c:131-152 | any update appends its bytes to what has been absorbed, the byte counter wrapping at 64 bits |
| Sha256.Context.Final | native/proc17_sha256.c:154-177 | padding and the last blocks give the digest of everything absorbed |
| Sha256.HashChunks | native/proc17_sha256.c:116-189 | init, any sequence of updates and final give the digest of the concatenation |
| Hex.Print | native/proc17_sha256.c:191-203 | the text is the lower-case hexadecimal of the bytes |
| Hex.Parse | native/proc17_sha256.c:205-232 | accepts exactly the 64-character texts that printing produces, and gives the bytes back |
| LuaDigest.LuaSha256 | core/digest.lua:38-107 | the Lua implementation, on masked 64-bit arithmetic, gives the hexadecimal of the same digest |
| LuaDigest.LuaRotr | core/digest.lua:26-28 | the masked shifts are a 32-bit rotation |
| LuaDigest.LuaAdd | core/digest.lua:30-36 | the masked sum is the sum modulo 2^32 |
| Allocator.StepKeeps | native/proc17_qa_allocator.c:184-254 | every call keeps current equal to the sum of live blocks, peak within the ceiling and never falling, at most one notification |
| Allocator.PriorFits | native/proc17_qa_allocator.c:216-225 | a live block never exceeds the current total, so the branch for a larger one is dead |
| Allocator.Allocator.Reallocate | native/proc17_qa_allocator.c:196-254 | the stepwise counter updates end exactly where the block sizes say; a failed request changes no block; every atomic access is a step of the shared telemetry's writer, spurious exchange failures included |
| Allocator.RunValid | native/proc17_qa_allocator.c:196-254 | conservation after every sequence of calls |
| Allocator.PeakMonotone | native/proc17_qa_allocator.c:172-254 | the peak bounds every total of the run, never falls and stays within the ceiling; notified at most once |
| Telemetry.StepKeeps | native/proc17_qa_allocator.c:172-254 | every atomic step, compare-and-exchange of the peak included, keeps the invariant; peak and denial never go back |
| Telemetry.RunKeeps | native/proc17_qa_allocator.c:114-148 | the telemetry invariant holds after every interleaving of atomic steps |
| Telemetry.LoadsInvisible | native/proc17_qa_allocator.c:114-148 | the allocator's accesses lead to the same cells whatever a snapshot loads between them |
| Telemetry.SnapshotBounds | native/proc17_qa_allocator.c:114-148 | every snapshot reads current <= peak <= ceiling and is refused only over the denial flags |
| Telemetry.MidDenialRefused | native/proc17_qa_allocator.c:129-139 | a concrete interleaving in mid-denial whose snapshot is refused |
| Telemetry.RefusalExact | native/proc17_qa_allocator.c:184-194 | some interleaving refuses a snapshot started now if and only if nothing has been denied yet |
| Scratch.Walk.Descend | native/proc17_qa_scratch.c:217-324 | the walk succeeds exactly if kinds, depth, quotas and baseline entries fit, and adds exactly the totals |
| Scratch.MeasureFinal | native/proc17_qa_scratch.c:339-390 | complete exactly for a conforming tree under an unchanged root, every object observable and the capacity known, with its entry count and byte sum |
| Scratch.OrderIrrelevant | native/proc17_qa_scratch.c:231-324 | listings with equal multisets of entries in every directory give the same outcome and totals |
| Utf8.WellFormedExact | native/proc17_repository_fs.c:337-403 | the byte syntax holds if and only if the text encodes some sequence of non-NUL scalar values |
| Utf8.ValidText | native/proc17_repository_fs.c:337-403 | the validator accepts exactly these texts |
| Utf8.SplitTargetPath | native/proc17_repository_fs.c:405-445 | the path is split at its last slash, and refused exactly for an empty name or parts too long |
| CreateFile.Transaction.WriteAll | native/proc17_repository_fs.c:1116-1142 | the loop ends by remaining bytes plus remaining retries, and success means the whole content was written |
| CreateFile.Transaction.FailPrivate | native/proc17_repository_fs.c:1202-1225 | the temporary file is removed or reported, and each descriptor still held is closed once |
| CreateFile.Transaction.FailPublished | native/proc17_repository_fs.c:1236-1243 | the published file stays, the failure is ambiguous, and each descriptor still held is closed once |
| CreateFile.Transaction.OpenIdentityPair | native/proc17_repository_fs.c:533-583 | on failure nothing that was opened stays open |
| CreateFile.Create | native/proc17_repository_fs.c:965-1244 | for every environment and racer the directory ends as the racer alone leaves it, but for the published file or a reported residue; the target appears only whole and only where none was; published exactly when renamed; the process holds the descriptors it held before, no number being closed twice; without a racer published exactly if every call up to the rename succeeds and both names were free |
| CreateFile.Transaction.PublishFile | native/proc17_repository_fs.c:1161-1200 | published exactly if the rename succeeds on an absent target |
| ReadFile.ReadAll | native/proc17_repository_fs.c:2058-2087 | if the object does not change meanwhile, what is read is its first min(size, max) bytes |
| ReadFile.Reobserve | native/proc17_repository_fs.c:1711-1805 | with others acting between any two of its five calls: succeeds exactly if no call fails, the roots met one after the other are the handle's, and the name in the parent met then is bound to an object in the same version, or to nothing where that is expected |
| ReadFile.Confirm | native/proc17_repository_fs.c:1957-2010 | a missing target or another kind of object is reported only if it is found so twice, by two separate descents |
| ReadFile.ReadTransaction | native/proc17_repository_fs.c:1876-2144 | with others acting between any two system calls: a success is the first min(size, max) bytes of one version of an object that two descents through the handle's roots found under the name, or an absence or another object found so twice; undisturbed and without faults the result is the expected one |
| Json.SortedUnique | core/json.lua:51-57 | a set of keys has only one sorted enumeration |
| Json.RoundTrip | core/json.lua:87-218 | parsing a printed value followed by anything that cannot continue it gives the value and the rest |
| Json.DecodeEncode | core/json.lua:34-231 | decoding undoes encoding for every finite tree of booleans, 64-bit integers, byte strings, arrays and objects |
| LuaTable.IsArray | core/json.lua:19-32 | counting keys in any order finds exactly the tables whose keys are 1 to their number |
| LuaTable.TreeFaithful | core/json.lua:34-66 | the tree of a value determines the value: no table is lost or confused |
| JsonText.EncodeValue | core/json.lua:13-66 | the printer's text is a function of the value, whatever order the table yields its keys in |
| JsonText.DecodeText | core/json.lua:223-231 | the parser object computes the specified parse of the whole text |
| JsonText.PrintAndParse | core/json.lua:34-231 | printing a Lua value and parsing the text gives the tree of that very value |

## Left out

- Namespace, mount, seccomp, capability and resource-limit setup in native/proc17_qa_supervisor.c: kernel effects; that
  the stage bytes match the source is a hypothesis.
- Liveness of the poll loops: they end only if the kernel delivers ends, exits or timers. Scripts of poll outcomes that
  run out leave a loop polling.
- Collision resistance of SHA-256 and the non-zero digest that the validators ask for: the latter is a hypothesis.
- Lua C API marshalling, the probe protocol and build identity checks.
- core/qa_schema.lua, core/dissolve_schema.lua, core/modes.lua, core/sandbox.lua, cli/proc17.lua: field checks and
  orchestration.
- Error numbers and error code strings of the file transactions: only the class of a failure is modelled.
- The inventory and other operations of native/proc17_repository_fs.c beyond create, read, path split and UTF-8.
- JSON floating-point numbers, nulls inside arrays and tables with mixed or non-string, non-array keys: the code does not
  preserve them.
- JSON numerals that are not 64-bit decimal integers: the parser model answers that they lie beyond it.
- RunProtocol.PipeLanguage: takes each frame write as atomic, as the static assertions on PIPE_BUF intend.
- ReadFile.ReadTransaction: takes as hypothesis that no content change goes by without altering the compared stamp; each
  path lookup is one step, since the kernel resolves it in one call.
- CreateFile.Create: takes the racer to act on any name but the random name of the temporary file.
- Scratch.MeasureFinal: the tree does not change during the walk.
- Telemetry.SnapshotBounds: atomic steps are sequentially consistent.
- The contents of the output streams in the run model: there the controller's loop is its epochs; `Controller` has them.
- Allocator.PriorFits: the dead branch itself has no counterpart in the model of the call.
- Phase.Phase: the finality mask is the set of its bits.
