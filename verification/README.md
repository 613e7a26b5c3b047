# Verified model of the Human takeover core

This project models the parts of the execution handoff that keep Human authority, media and input honest, and proves
what they promise. It verifies with `dafny verify dfyconfig.toml`.

- **Authority lease** (`Session`, `SessionRuns`, `Grants`, `SessionTheorems`, `SessionLedger`, `SessionExamples`,
  `Authority`, `AuthorityRuns`, `AuthorityAnswers`): the session manager and the socket authority on top of it, as
  classes over maps of records, with theorems over every run of calls under a non-decreasing clock. `SessionLedger`
  keeps what callers were told and says from that alone what every later call answers.
- **Socket channel** (`Channel`, `WebSocketChannel`, `ChannelRuns`, `ChannelNotices`, `ChannelProgress`): a serial queue
  of inbound operations, a frame path beside it and `start()` calls, with the failure codes and what the peer is told at
  the end. Every `await` ends a step, and what is awaited answers later, in any order, with any outcome; the theorems
  hold for every interleaving.
- **Transport coordinator** (`Coordinator`, `CoordinatorRuns`, `CoordinatorAnswers`): transitions over a plan of any
  length with drivers that may fail in every way.
- **Media** (`Bytes`, `AnnexB`, `AnnexBStream`, `HostRecord`, `Rtp`, `MediaPipeline`, `VideoScheduler`,
  `SchedulerAnswers`, `JpegFrames`, `WindowRecord`, `WireFormats`): incremental parsers and printers of ITU-T H.264
  Annex B, host records and RTP payloads (sections 5.6 and 5.8 of RFC 6184, section 5.1 of RFC 3550), the latest-only
  scheduler over suspensions and resumptions, and JPEG splitting.
- **XTEST helper** (`XTestHelper`): the command loop of the C helper under arbitrary answers of the X server.
- **Text and digests** (`Fields`, `Utf16`, `JsonText`, `JsonNumber`, `CanonicalJson`, `JsonLayout`, `Invocation`,
  `TextMirror`): canonical JSON over UTF-16 with a JSON reader beside it (sections 6 and 7 of RFC 8259), the digested
  UTF-8 bytes, and the suffix-only text mirror.

An operation that changes fields is a method of a class, proved against a function that gives the whole new state
(`AfterPush`, `Claim`, `AfterRun`, ...); the lemmas are about those functions and about runs made of them. Two kinds
stand side by side: what no run ever does, and what every call answers in every reachable state (the lemmas named
`...Answer`). Errors are values: `Err`, `None`, `Failed`, or a flag that says that the call threw. Tokens are
`Mac(message)`, so that two tokens are equal exactly when their messages are: the HMAC is taken to be injective on
messages, and everything about fields is proved from the message encoding.

## What the proofs found

- The lead-in bound of the Annex-B parser (`src/browser-takeover/linux-webrtc-host-cli.ts:219-221`) and the bound of the
  window record reader (`src/browser-takeover/websocket-window-host-record.ts:27-29`) depend on how the bytes are cut.
  `AnnexB.ChunkIndependence` and `WindowRecord.ThrowsIff` say exactly when they throw.
- The JPEG splitter emits images up to 8 MiB, but a record has room for four bytes less
  (`WindowRecord.EmittedIsPrintable`, with images for every size in between in `WindowRecord.OversizedImage`).
- At most one frame is in flight, unless a session is resumed while a send to its old peer is still awaited
  (`src/browser-takeover/webrtc-runtime.ts:576-588` clears the drain flag all the same): `VideoScheduler.OneInFlightIff`
  gives the exact condition and `VideoScheduler.TwoInFlight` a run with two.
- A frame that depends on a skipped one can be sent behind a pending keyframe; `VideoScheduler.NoGapIff` gives the exact
  condition and `VideoScheduler.GapBehindKeyframe` a run.
- A completion capability issued before a verified completion is refused after it, since its message holds the
  completion deadline (`SessionTheorems.CompletionCapabilityLapses` says exactly when,
  `SessionExamples.CapabilityRefused` is a run).
- The fields of a token message are not escaped: with a NUL in an intervention id and a principal, records of different
  interventions share a capability (`Grants.NulFieldsCollide`); without one every field is bound
  (`Grants.EveryFieldBound`).
- Pruning forgets the completed status of some completed records; `SessionTheorems.PruningForgets` says exactly which,
  and `SessionExamples` has a run for each of the two cases.
- Two failed starts of one fallback can be given the same generation when a driver's `revoke` throws at once
  (`CoordinatorRuns.GenerationSharedIff` says exactly when, `CoordinatorRuns.FailedStartsMayShareGeneration` is a run);
  lease generations still increase.
- Tool names that differ only in lone surrogates are digested alike (`Invocation.LoneSurrogatesCollide`).
- A record object whose ticket rotation failed keeps its old ticket, and pruning it takes away a ticket of the same text
  that was issued for another session meanwhile (`src/browser-takeover/websocket-ingress.ts:253-263`);
  `AuthorityAnswers.TicketLasts` and `AuthorityAnswers.AcceptAnswer` name that case (`Dropped`).
- The text delta is not the shortest when the old value holds a lone leading surrogate
  (`TextMirror.FewestBackspacesIff`).
- The XTEST helper skips lines with more than five tokens: the test for no tokens comes before the test for too many
  (`native/linux-xtest-helper.c:257-262`), so such a line gets no `ERR PROTOCOL`.

## Model

| member | source | states |
|---|---|---|
| `AnnexB.StartCodeAt` | src/browser-takeover/linux-webrtc-host-cli.ts:185-192 | the search loop returns the first place at or after the offset where a 3- or 4-byte start code stands, or -1 when there is none |
| `AnnexB.FirstStart` | src/browser-takeover/linux-webrtc-host-cli.ts:185-192 | its result is a start code, nothing before it is one, and -1 means there is none at all |
| `AnnexB.AnnexBAccessUnitParser.Push` | src/browser-takeover/linux-webrtc-host-cli.ts:205-209 | appends and drains: the whole state, the emitted access units and the thrown error are those of the specification of a push |
| `AnnexB.AnnexBAccessUnitParser.End` | src/browser-takeover/linux-webrtc-host-cli.ts:211-215 | drains with flush and emits the unit in progress |
| `AnnexB.AnnexBAccessUnitParser.Drain` | src/browser-takeover/linux-webrtc-host-cli.ts:217-240 | the drain loop cuts the pending bytes at start codes and keeps or throws on the lead-in; with flush the last unit is taken up to the end: whole state and error for both |
| `AnnexB.AnnexBAccessUnitParser.AcceptNal` | src/browser-takeover/linux-webrtc-host-cli.ts:242-252 | a delimiter ends the access unit, the size bound throws, anything else is added |
| `AnnexB.AnnexBAccessUnitParser.EmitCurrent` | src/browser-takeover/linux-webrtc-host-cli.ts:254-259 | a non-empty unit is emitted with its keyframe flag and the buffer is emptied |
| `AnnexB.ChunkIndependence` | src/browser-takeover/linux-webrtc-host-cli.ts:185-240 | for every delivery: a run throws exactly when the bytes themselves do or the lead-in bound is passed at some arrival; otherwise its state and units depend on the concatenated bytes only |
| `AnnexB.EmitsGoodUnits` | src/browser-takeover/linux-webrtc-host-cli.ts:217-260 | over any delivery of any bytes, throwing or not and at the end: every access unit emitted has NAL units, none empty and none a delimiter, fits a record, and has its flag set exactly when a header has 5 in its low five bits |
| `AnnexB.NothingLost` | src/browser-takeover/linux-webrtc-host-cli.ts:217-260 | over any delivery that does not throw: the emitted units and the one being collected are exactly the NAL units between the start codes received, in order |
| `AnnexB.SameBytesSameUnits` | src/browser-takeover/linux-webrtc-host-cli.ts:199-260 | two deliveries of the same bytes that do not throw emit the same units and flags |
| `AnnexBStream.NextStart` | src/browser-takeover/linux-webrtc-host-cli.ts:185-197 | in a printed stream the next start code after a unit is the one of the next unit, for 3- and 4-byte codes and no emulation inside |
| `AnnexBStream.AnnexBRoundTrip` | src/browser-takeover/linux-webrtc-host-cli.ts:199-260 | parsing inverts printing: any delivery of printed pictures, any mix of start codes, gives exactly the units of each picture; the flag of unit i is set exactly when some byte after a start code of picture i has 5 in its low five bits |
| `AnnexBStream.LeadInDependsOnChunks` | src/browser-takeover/linux-webrtc-host-cli.ts:217-223 | two deliveries of the same bytes of which one throws and one does not: the lead-in bound depends on the chunks |
| `HostRecord.AvccFromNalUnits` | src/browser-takeover/linux-webrtc-host-cli.ts:79-90 | the buffer filled at a moving offset holds the four-byte lengths and units in order |
| `HostRecord.SplitAvcc` | src/browser-takeover/webrtc-runtime.ts:1134-1145 | the offset loop returns the units of a well-formed sample and nothing for any other |
| `HostRecord.SplitInvertsAvcc` | src/browser-takeover/linux-webrtc-host-cli.ts:79-90 | splitting what was packed gives the units back |
| `HostRecord.AvccInvertsSplit` | src/browser-takeover/webrtc-runtime.ts:1134-1145 | the other direction: a sample that splits is the packing of what it splits into |
| `HostRecord.FrameRecord` | src/browser-takeover/linux-webrtc-host-cli.ts:92-108 | the record bytes: type 1, length, timestamp modulo 2^32, keyframe flag, size, sample; or the error exactly for a frame out of bounds |
| `HostRecord.EditableRecord` | src/browser-takeover/linux-webrtc-host-cli.ts:110-116 | the six bytes of an editable notice |
| `HostRecord.HostRecordParser.Push` | src/browser-takeover/webrtc-runtime.ts:1309-1334 | the reading loop: buffer, callbacks in order, and failure for each malformed record |
| `HostRecord.HostRecordParser.End` | src/browser-takeover/webrtc-runtime.ts:1336-1338 | a reader left with bytes fails |
| `HostRecord.HostRecordParser.Fail` | src/browser-takeover/webrtc-runtime.ts:1340-1345 | fails once, and drops the buffer |
| `HostRecord.ChunkIndependence` | src/browser-takeover/webrtc-runtime.ts:1298-1345 | callbacks, failure and buffer depend on the concatenated bytes only, for every delivery of any bytes |
| `HostRecord.HostRecordRoundTrip` | src/browser-takeover/webrtc-runtime.ts:1298-1345 | any delivery of printed records is read back exactly and does not fail at the end |
| `Rtp.FuBits` | src/browser-takeover/webrtc-runtime.ts:842-848 | the bit operations on the NAL header agree with the arithmetic of the model |
| `Rtp.PayloadBounds` | src/browser-takeover/webrtc-runtime.ts:829-852 | every payload has 1 to 1200 bytes; every fragment has the NAL unit's F and NRI bits under type FU-A in its first byte and the NAL type in its second, with S set in the first fragment only and E in the last only |
| `Rtp.PacketHeaders` | src/browser-takeover/webrtc-runtime.ts:826-855 | sequence numbers are consecutive modulo 2^16 across NAL units, the timestamp is the frame's, and the marker is on the last packet only |
| `Rtp.Reassemble` | src/browser-takeover/webrtc-runtime.ts:842-854 | a receiver of section 5.8 of RFC 6184 rebuilds a fragmented NAL unit with its header byte |
| `Rtp.FrameRoundTrip` | src/browser-takeover/webrtc-runtime.ts:817-860 | a receiver in step with the sequence numbers rebuilds exactly the NAL units of a frame, in order, with the marker on the last |
| `Rtp.RtpSender.SendFrame` | src/browser-takeover/webrtc-runtime.ts:817-860 | the loops send a prefix of the packets of the frame, all of them unless the session goes away, and advance the sequence number only then |
| `Rtp.RtpSender.SendNal` | src/browser-takeover/webrtc-runtime.ts:829-855 | one NAL unit: a single packet, or its fragments in order |
| `MediaPipeline.EndToEnd` | src/browser-takeover/linux-webrtc-host-cli.ts:185-260 | from an Annex-B stream cut anywhere, through packing, records cut anywhere, reading, splitting and packets, a receiver gets exactly the original NAL units per picture, with size and timestamp modulo 2^32, and the keyframe flag exactly when the picture holds a NAL unit with header % 32 == 5 |
| `MediaPipeline.DeliveredShots` | src/browser-takeover/linux-webrtc-host-cli.ts:242-260 | one delivered frame is owed for each frame written, with its own size and timestamp, and the flag exactly when its picture holds an IDR slice |
| `WireFormats.FrameLayout` | src/browser-takeover/linux-webrtc-host-cli.ts:92-108 | every byte of a frame record by its place, and exactly which frames have none |
| `WireFormats.EditableLayout` | src/browser-takeover/linux-webrtc-host-cli.ts:110-116 | every byte of an editable notice |
| `WireFormats.AvccLayout` | src/browser-takeover/linux-webrtc-host-cli.ts:79-90 | each unit of a sample behind its length in four bytes, the most significant one first |
| `WireFormats.HostReading` | src/browser-takeover/webrtc-runtime.ts:1298-1345 | for every delivery of any bytes: they split into records the reader takes, each reported by its fields in order, and a rest that is kept as the beginning of a record or is bad and the one failure; the end is clean exactly if nothing is left |
| `JpegFrames.Marker` | src/browser-takeover/linux-webrtc-host-cli.ts:161-167 | finds the first place of a two-byte marker, or none |
| `JpegFrames.JpegFrameParser.Push` | src/browser-takeover/linux-webrtc-host-cli.ts:148-152 | appends and drains: pending bytes, frames emitted and the thrown error |
| `JpegFrames.JpegFrameParser.End` | src/browser-takeover/linux-webrtc-host-cli.ts:154-157 | drains once more and drops what is left |
| `JpegFrames.JpegFrameParser.Drain` | src/browser-takeover/linux-webrtc-host-cli.ts:159-182 | the loop cuts at SOI and EOI, keeps a last byte, and throws over the bound |
| `JpegFrames.ChunkIndependence` | src/browser-takeover/linux-webrtc-host-cli.ts:143-183 | frames emitted and whether the parser throws depend on the bytes only; without an error the whole state does |
| `JpegFrames.EmitsImages` | src/browser-takeover/linux-webrtc-host-cli.ts:159-182 | every frame emitted by any run begins with SOI, ends with its first EOI and is within the bound |
| `JpegFrames.ImagesRoundTrip` | src/browser-takeover/linux-webrtc-host-cli.ts:143-183 | images written back to back are recovered exactly from any delivery |
| `WireFormats.JpegReading` | src/browser-takeover/linux-webrtc-host-cli.ts:159-182 | for every delivery of any bytes: they split into gaps in which no image begins, each followed by an image that is emitted, and a rest that is kept, or is too long and thrown at |
| `WireFormats.JpegEnd` | src/browser-takeover/linux-webrtc-host-cli.ts:154-157 | the end of the input emits nothing more |
| `WireFormats.JpegLayout` | src/browser-takeover/linux-webrtc-host-cli.ts:122-141 | every byte of a JPEG record by its place, and exactly which frames have none |
| `WireFormats.WindowReading` | src/browser-takeover/websocket-window-host-record.ts:22-63 | for every delivery that respects the bound: records it takes, each reported by its fields, and a rest that is kept or bad and thrown at |
| `WindowRecord.JpegFrameRecord` | src/browser-takeover/linux-webrtc-host-cli.ts:122-141 | the record bytes of a JPEG frame, or the error exactly for an invalid one |
| `WindowRecord.EmittedIsPrintable` | src/browser-takeover/linux-webrtc-host-cli.ts:122-128 | an emitted frame is accepted by the record printer exactly when it leaves four bytes under the bound: the splitter lets through frames that the printer rejects |
| `WindowRecord.OversizedImage` | src/browser-takeover/linux-webrtc-host-cli.ts:122-128 | for each size in between, an image that the splitter emits and the printer rejects |
| `WindowRecord.WindowHostRecordParser.Push` | src/browser-takeover/websocket-window-host-record.ts:22-63 | the bound test on arrival and the reading loop: pending bytes, callbacks and thrown errors |
| `WindowRecord.ThrowsIff` | src/browser-takeover/websocket-window-host-record.ts:22-63 | for every delivery of any bytes: the reader throws exactly when the bytes hold a refused record or the bound is passed at an arrival; otherwise the state depends on the bytes only |
| `WindowRecord.WindowRecordRoundTrip` | src/browser-takeover/websocket-window-host-record.ts:22-63 | printed records are read back exactly if and only if the bound is respected at every arrival |
| `WindowRecord.BoundDependsOnChunks` | src/browser-takeover/websocket-window-host-record.ts:27-29 | one record per chunk always passes; the same records in one chunk throw once they exceed the bound together |
| `WindowRecord.JpegEndToEnd` | src/browser-takeover/linux-webrtc-host-cli.ts:122-183 | images cut anywhere into the host and cut again, within the bound, on the way to the server arrive exactly, with their size |
| `VideoScheduler.FrameScheduler.WriteFrame` | src/browser-takeover/webrtc-runtime.ts:740-754 | where a frame goes: dropped once closing, kept if it is a keyframe while suspended or not connected, enqueued otherwise |
| `VideoScheduler.FrameScheduler.EnqueueConnectedFrame` | src/browser-takeover/webrtc-runtime.ts:756-791 | waiting for a keyframe, keeping a pending keyframe, dropping a broken chain and asking for a keyframe, starting the drain unless one is active |
| `VideoScheduler.FrameScheduler.DrainTurn` | src/browser-takeover/webrtc-runtime.ts:795-802 | one turn of the drain loop: takes the pending frame and begins its send, or ends the loop |
| `VideoScheduler.FrameScheduler.StartDrain` | src/browser-takeover/webrtc-runtime.ts:786-790 | marks the drain active and takes its first turn |
| `VideoScheduler.FrameScheduler.SendFinished` | src/browser-takeover/webrtc-runtime.ts:793-815 | after a send the loop goes on; after an error another loop starts if a frame waits, and the session ends |
| `VideoScheduler.FrameScheduler.PeerConnected` | src/browser-takeover/webrtc-runtime.ts:667-678 | sends the pre-connect keyframe if there is one and a sender, and otherwise waits for a keyframe and asks for it |
| `VideoScheduler.FrameScheduler.PeerDown` | src/browser-takeover/webrtc-runtime.ts:680-683 | a lost peer ends the session unless it is suspended |
| `VideoScheduler.FrameScheduler.EndSession` | src/browser-takeover/webrtc-runtime.ts:935-944 | closing, and no longer suspended |
| `VideoScheduler.FrameScheduler.SuspendSession` | src/browser-takeover/webrtc-runtime.ts:506-523 | drops sender, pending and pre-connect frames and waits for a keyframe; once only, and not when closing |
| `VideoScheduler.FrameScheduler.ResumeSuspended` | src/browser-takeover/webrtc-runtime.ts:559-588 | the new peer's state: not connected, no sender, drain flag cleared, waiting for a keyframe |
| `VideoScheduler.NextOk` | src/browser-takeover/webrtc-runtime.ts:506-815 | every event keeps the invariant of the scheduler, suspensions and resumptions included |
| `VideoScheduler.OneInFlight` | src/browser-takeover/webrtc-runtime.ts:756-815 | in every run whose resumptions find no send outstanding: sends begun = sends ended + sends outstanding, at most one is outstanding, and the drain flag says which |
| `VideoScheduler.OneInFlightIff` | src/browser-takeover/webrtc-runtime.ts:576-588 | a resumption keeps at most one frame in flight, whatever follows, exactly when no send is outstanding at that moment |
| `VideoScheduler.TwoInFlight` | src/browser-takeover/webrtc-runtime.ts:576-588 | a run with two sends at once |
| `VideoScheduler.NothingForgotten` | src/browser-takeover/webrtc-runtime.ts:756-815 | a pending frame of a session that is up has an active drain with a send whose end takes it up; a session waiting for a keyframe has called for one since it has its current peer |
| `VideoScheduler.SentInArrivalOrder` | src/browser-takeover/webrtc-runtime.ts:756-815 | frames are sent in arrival order, first a keyframe, over all runs |
| `VideoScheduler.PendingKeyframeIsKept` | src/browser-takeover/webrtc-runtime.ts:767-772 | while the session is up, a pending keyframe is sent or displaced by a newer keyframe, and forgotten by a suspension only |
| `VideoScheduler.DependentFollows` | src/browser-takeover/webrtc-runtime.ts:756-803 | two dependent frames sent back to back are consecutive arrivals; whatever is skipped between a keyframe and the next dependent frame arrived while the keyframe was waiting |
| `VideoScheduler.NoGapIff` | src/browser-takeover/webrtc-runtime.ts:767-785 | there is no reference gap before a dependent frame exactly when nothing arrived while the frame before it was waiting |
| `VideoScheduler.GapBehindKeyframe` | src/browser-takeover/webrtc-runtime.ts:768-772 | a run that sends a frame depending on a skipped one |
| `SchedulerAnswers.WriteAnswer` | src/browser-takeover/webrtc-runtime.ts:756-791 | what becomes of a frame in every reachable state: kept before the connection if a keyframe; sent, or put before anything older that waits; or given up, with a keyframe asked for if a chain breaks |
| `SchedulerAnswers.ConnectAnswer` | src/browser-takeover/webrtc-runtime.ts:667-678 | a connection with a sender sends the keyframe kept for it, or lets it wait its turn; without keyframe or sender a keyframe is asked for |
| `SchedulerAnswers.SendAnswer` | src/browser-takeover/webrtc-runtime.ts:793-815 | the end of a send: the frame that waits is sent next, or the drain is over; an error ends the session |
| `SchedulerAnswers.ResumedAfresh` | src/browser-takeover/webrtc-runtime.ts:559-588 | after a resumption no frame is sent that arrived before it, over every run |
| `Session.TakeoverSessionManager.EnsureSession` | src/browser-takeover/session.ts:65-101 | prunes, returns a matching live record, or supersedes the others of the intervention and creates one: the whole new map and the result |
| `Session.TakeoverSessionManager.RequireActive` | src/browser-takeover/session.ts:323-332 | the record, or not found, or expired |
| `Session.TakeoverSessionManager.IssueCompletionCapability` | src/browser-takeover/session.ts:109-121 | the token, or the error, for principal and time |
| `Session.TakeoverSessionManager.CompleteSession` | src/browser-takeover/session.ts:123-145 | marks the record completed once, refuses by capability, principal, time or revocation |
| `Session.TakeoverSessionManager.ClaimClient` | src/browser-takeover/session.ts:147-160 | the first claim gets generation 1 and the grant; a claim again by the same client, not released, succeeds with the same generation; any other client is refused |
| `Session.TakeoverSessionManager.ReconnectClient` | src/browser-takeover/session.ts:162-185 | by the current handle, and only with no use in flight: the next generation for the new client, released cleared and the time noted, with the counter as it was; or the error |
| `Session.TakeoverSessionManager.ReleaseClientGeneration` | src/browser-takeover/session.ts:187-200 | releases the current generation of the current client and nothing else |
| `Session.TakeoverSessionManager.BeginBound` | src/browser-takeover/session.ts:202-221 | counts a use of the current client and generation |
| `Session.TakeoverSessionManager.VerifyCapability` | src/browser-takeover/session.ts:256-280 | accepts exactly the current capability and notes the time |
| `Session.TakeoverSessionManager.Begin` | src/browser-takeover/session.ts:223-233 | verifies and counts a use |
| `Session.TakeoverSessionManager.End` | src/browser-takeover/session.ts:235-254 | takes one use off the current generation, at least 0; stale ends change nothing |
| `Session.TakeoverSessionManager.CompleteVerified` | src/browser-takeover/session.ts:282-303 | completes what the intervention and epoch still allow, extends the grace once, and reports each |
| `Session.TakeoverSessionManager.RevokeSession` | src/browser-takeover/session.ts:312-315 | revokes that record only |
| `Session.TakeoverSessionManager.RevokeIntervention` | src/browser-takeover/session.ts:317-321 | revokes exactly the records of the intervention |
| `Session.TakeoverSessionManager.PruneExpired` | src/browser-takeover/session.ts:471-481 | deletes exactly the revoked records that are not completed, the unclaimed ones past their lease and the claimed ones past their completion deadline |
| `SessionRuns.NextOk` | src/browser-takeover/session.ts:65-321 | every call keeps the invariant of the records and their history |
| `SessionTheorems.InFlightIsOutstanding` | src/browser-takeover/session.ts:202-254 | in every run an active record's counter is the number of uses begun and not ended, and all belong to its current generation |
| `SessionTheorems.NoGenerationOverlap` | src/browser-takeover/session.ts:162-254 | no use of a newer generation begins while a use of an older one is outstanding, also after a release |
| `SessionTheorems.ClampNeverFires` | src/browser-takeover/session.ts:235-254 | with ends matched to begins the counter is positive whenever it is decremented |
| `Grants.KindsSeparate` | src/browser-takeover/session.ts:410-469 | messages of the three kinds are never equal, whatever the fields hold |
| `Grants.RecordsSeparate` | src/browser-takeover/session.ts:410-469 | tokens of different records differ for NUL-free ids, with no assumption on intervention id or principal |
| `Grants.GenerationsSeparate` | src/browser-takeover/session.ts:410-469 | within a record the token determines client binding and generation |
| `Grants.DeadlinesSeparate` | src/browser-takeover/session.ts:432-447 | completion capabilities of a record are equal exactly as long as its completion deadline is |
| `Grants.EveryFieldBound` | src/browser-takeover/session.ts:410-430 | for fields without NUL two capabilities, or two handles, are equal exactly if session, intervention, epoch, principal, client, generation and lease end all are |
| `Grants.CompletionFieldsBound` | src/browser-takeover/session.ts:432-447 | for fields without NUL two completion capabilities are equal exactly if session, intervention, epoch, principal, lease end and completion deadline all are |
| `Grants.NulFieldsCollide` | src/browser-takeover/session.ts:410-430 | with a NUL in a field they need not: two records of different interventions, epochs and principals with the same capability |
| `Fields.DecimalInjective` | src/browser-takeover/session.ts:410-469 | numbers in a message are determined by their digits |
| `SessionTheorems.StaleTokensRefused` | src/browser-takeover/session.ts:256-280 | tokens of an older generation of a record are refused |
| `SessionTheorems.ReconnectFencesForever` | src/browser-takeover/session.ts:162-185 | after a reconnect every earlier capability and handle is refused in all later states, while the completion capability stays good |
| `SessionTheorems.CompletedOnce` | src/browser-takeover/session.ts:123-145 | over any run a record is reported as newly completed at most once, by the two completion methods together |
| `SessionTheorems.CompletedIsFinal` | src/browser-takeover/session.ts:123-145 | completed implies revoked and released, and no later claim, reconnect, verification or use succeeds |
| `SessionTheorems.CompletionCapabilityLapses` | src/browser-takeover/session.ts:123-145 | after any run and a verified completion, completing with a capability issued before is refused exactly when the completion happened at another moment than the end of the lease |
| `SessionExamples.CapabilityRefused` | src/browser-takeover/session.ts:282-303 | a run in which a capability is issued, a verified completion follows and the capability is refused |
| `SessionTheorems.CompletionDeadline` | src/browser-takeover/broker.ts:450-453 | the completion deadline never exceeds creation + ttl + 2 * grace, which the route retention relies on |
| `SessionTheorems.OneLiveRecord` | src/browser-takeover/session.ts:65-101 | no reachable state has two unrevoked unexpired records of one intervention |
| `SessionTheorems.PruningIsSafe` | src/browser-takeover/session.ts:471-481 | pruning never deletes a record on which a call could still succeed |
| `SessionTheorems.PruningForgets` | src/browser-takeover/session.ts:305-310 | exactly which completed records lose their completed status by pruning |
| `SessionExamples.UnclaimedCompletionForgotten` | src/browser-takeover/session.ts:471-481 | a run for the first exception: a completion still visible is forgotten |
| `SessionExamples.RepeatedCompletionForgotten` | src/browser-takeover/session.ts:471-481 | a run for the second: a repeated completion that would be accepted finds no record, for every configuration with a grace shorter than the lease |
| `SessionLedger.NextKept` | src/browser-takeover/session.ts:65-321 | the ledger, kept from the answers that callers were given and from nothing else, stays in step with the records in every call |
| `SessionLedger.LedgerExists` | src/browser-takeover/session.ts:65-321 | every reachable state has its ledger |
| `SessionLedger.EnsureAnswer` | src/browser-takeover/session.ts:65-101 | an open session for the same intervention, epoch and principal is given again, otherwise a new one with a whole lease |
| `SessionLedger.LocatorAnswer` | src/browser-takeover/session.ts:103-107 | a locator is given of an open session to its principal, with the fields it was made with; each other case has its error |
| `SessionLedger.IssueAnswer` | src/browser-takeover/session.ts:109-121 | issued exactly to the principal of a session that is not over, in its lease or its grace |
| `SessionLedger.CompleteAnswer` | src/browser-takeover/session.ts:123-145 | a session that is not over is completed by exactly the token that would be issued for it; a completed one is reported so again by exactly one token; a revoked one is not found |
| `SessionLedger.ClaimAnswer` | src/browser-takeover/session.ts:147-160 | the first claim gets generation 1; the client of the last grant gets that very grant again unless it was released; anybody else is refused |
| `SessionLedger.ReconnectAnswer` | src/browser-takeover/session.ts:162-185 | succeeds exactly with the handle of the last grant, nothing in flight, and the client gone or idle; the generation is one more than granted last; each other case has its error |
| `SessionLedger.ReleaseAnswer` | src/browser-takeover/session.ts:187-200 | succeeds exactly for principal, client and generation of the last grant of an open session |
| `SessionLedger.BeginBoundAnswer` | src/browser-takeover/session.ts:202-221 | begins exactly for client and generation of the last grant, not released |
| `SessionLedger.BeginAnswer` | src/browser-takeover/session.ts:223-233 | begins a use exactly with the capability of the last grant, by its client, not released, while the session is open |
| `SessionLedger.VerifyAnswer` | src/browser-takeover/session.ts:256-280 | Ok exactly if the token is the capability of the last grant of that session, its client and principal present it, and the session is open and not released; each other case has its error |
| `SessionLedger.VerifiedAnswer` | src/browser-takeover/session.ts:282-303 | newly completed are exactly the sessions of intervention and epoch that are not over and in their lease or, claimed, in their grace; reported again are those still remembered |
| `SessionLedger.IsCompletedAnswer` | src/browser-takeover/session.ts:305-310 | true exactly for a completed session within its grace that is not forgotten, and an error for another principal |
| `SessionLedger.KeptIsOfUse` | src/browser-takeover/session.ts:471-481 | pruning keeps nothing that is of no more use |
| `Authority.WebSocketSessionAuthority.IssueHandshakeTicket` | src/browser-takeover/websocket-ingress.ts:87-122 | refuses an inexact policy, prunes, validates, registers, rotates the ticket: all maps, the record objects and the result |
| `Authority.WebSocketSessionAuthority.AcceptSocket` | src/browser-takeover/websocket-ingress.ts:124-166 | admits the current ticket, claims or reconnects with the stored handle, records the grant, and gives locator, policy and lease |
| `Authority.WebSocketSessionAuthority.InvalidateTicket` | src/browser-takeover/websocket-ingress.ts:168-173 | the ticket is gone from map and record |
| `Authority.WebSocketSessionAuthority.RevokeSession` | src/browser-takeover/websocket-ingress.ts:175-179 | forgets the record and revokes the session |
| `Authority.WebSocketSessionAuthority.BeginLease` | src/browser-takeover/websocket-ingress.ts:185-203 | only the current lease begins a use |
| `Authority.WebSocketSessionAuthority.EndLease` | src/browser-takeover/websocket-ingress.ts:204-211 | ends a use of the lease's own generation |
| `Authority.WebSocketSessionAuthority.CompleteLease` | src/browser-takeover/websocket-ingress.ts:212-221 | only the current lease completes; the record is then forgotten |
| `Authority.WebSocketSessionAuthority.ReleaseLease` | src/browser-takeover/websocket-ingress.ts:222-248 | only the current lease releases; lost sessions count as released |
| `Authority.WebSocketSessionAuthority.PruneExpired` | src/browser-takeover/websocket-ingress.ts:253-258 | forgets exactly the expired records |
| `Authority.WebSocketSessionAuthority.ForgetRecord` | src/browser-takeover/websocket-ingress.ts:260-263 | removes the record from both maps |
| `AuthorityRuns.AcceptIsTheOperation` | src/browser-takeover/websocket-ingress.ts:124-166 | the accepting step is the method's specification |
| `AuthorityRuns.UseStepsAreTheOperations` | src/browser-takeover/websocket-ingress.ts:181-211 | the use steps are the lease operations |
| `AuthorityRuns.ReleaseIsTheOperation` | src/browser-takeover/websocket-ingress.ts:222-248 | the release step is the lease operation |
| `AuthorityRuns.CompletesIsTheOperation` | src/browser-takeover/websocket-ingress.ts:212-221 | the completion step is the lease operation |
| `AuthorityRuns.AuthNextOk` | src/browser-takeover/websocket-ingress.ts:87-264 | every step keeps authority and manager in step |
| `AuthorityRuns.StoredHandleIsCurrent` | src/browser-takeover/websocket-ingress.ts:124-166 | while a session is active the stored client, generation and handle are the manager's current ones |
| `AuthorityRuns.SupersededLeaseIsHarmless` | src/browser-takeover/websocket-ingress.ts:181-251 | a lease of an older generation fails to begin and complete, and its end and release change nothing |
| `AuthorityRuns.OneTicketPerSession` | src/browser-takeover/websocket-ingress.ts:87-122 | at most one ticket maps to a session |
| `AuthorityRuns.OnlyCurrentTicketAccepted` | src/browser-takeover/websocket-ingress.ts:124-166 | an accept succeeds only with the ticket its record holds now |
| `AuthorityRuns.RotationReplaces` | src/browser-takeover/websocket-ingress.ts:87-166 | right after a ticket is issued every other ticket is refused for that session |
| `AuthorityRuns.RotationFences` | src/browser-takeover/websocket-ingress.ts:87-166 | once another ticket was issued for its session, a ticket is refused in every later state of every run that does not issue that very ticket again |
| `AuthorityAnswers.AcceptAnswer` | src/browser-takeover/websocket-ingress.ts:124-166 | what accept answers in every reachable state: with the ticket in use for an active session it succeeds for a first client, and again for every later one once nothing is in flight and the client is gone or idle; the lease is for the new client, at generation 1 or one more than before; locator and policy are those of the session; each other case has its error |
| `AuthorityAnswers.IssueAnswer` | src/browser-takeover/websocket-ingress.ts:87-122 | what issuing answers in every reachable state: the ticket, usable from then on, for an active session, its principal and the policy of its first ticket; each other case has its error |
| `AuthorityAnswers.LeaseBeginAnswer` | src/browser-takeover/websocket-ingress.ts:185-203 | the newest lease begins a use exactly while its session is active and not released; each other case has its error |
| `AuthorityAnswers.LeaseEndAnswer` | src/browser-takeover/websocket-ingress.ts:204-211 | an end takes one use off for the newest lease of an active session and does nothing else |
| `AuthorityAnswers.LeaseReleaseAnswer` | src/browser-takeover/websocket-ingress.ts:222-248 | a release always succeeds, and releases exactly for the newest lease of an active session |
| `AuthorityAnswers.LeaseCompleteAnswer` | src/browser-takeover/websocket-ingress.ts:212-221 | the newest lease completes its session, newly in its lease or grace and again unless the deadline moved; afterwards the session is not registered; an older lease is refused |
| `AuthorityAnswers.InvalidateAnswer` | src/browser-takeover/websocket-ingress.ts:168-173 | in every reachable state: the ticket leads nowhere, the record it led to holds none, and every other ticket and record stays |
| `AuthorityAnswers.TicketLasts` | src/browser-takeover/websocket-ingress.ts:87-264 | a ticket in use stays in use until a step prunes, invalidates, revokes or completes its record, or another is issued |
| `AuthorityAnswers.ConnectedTwice` | src/browser-takeover/websocket-ingress.ts:124-166 | a run in which one ticket is accepted twice: two leases of one record, the second a generation up, and the first can do nothing any more |
| `WebSocketChannel.TakeoverChannel.ReceiveText` | src/browser-takeover/websocket-takeover.ts:429-456 | admission, size and queue limits; reserves and enqueues, or closes admission |
| `WebSocketChannel.TakeoverChannel.ReserveQueuedInbound` | src/browser-takeover/websocket-takeover.ts:570-590 | reserves exactly when both limits allow it, and keeps the largest counts |
| `WebSocketChannel.TakeoverChannel.Terminate` | src/browser-takeover/websocket-takeover.ts:529-550 | disconnect and revoke close admission and enqueue |
| `WebSocketChannel.TakeoverChannel.RunNext` | src/browser-takeover/websocket-takeover.ts:597-604 | the next operation of the serial queue starts |
| `WebSocketChannel.TakeoverChannel.RunText` | src/browser-takeover/websocket-takeover.ts:454-500 | what a text does when its turn comes |
| `WebSocketChannel.TakeoverChannel.RunTermination` | src/browser-takeover/websocket-takeover.ts:531-568 | disconnect and revoke when their turn comes: nothing if already over, otherwise the final state, and a release or the close |
| `WebSocketChannel.TakeoverChannel.StartCompletion` | src/browser-takeover/websocket-takeover.ts:688-697 | completion starts once, closing the channel and telling the peer |
| `WebSocketChannel.TakeoverChannel.QueueBeginAnswered` | src/browser-takeover/websocket-takeover.ts:642-656 | a failed begin fails the channel; an input is dispatched only if still open and admitted |
| `WebSocketChannel.TakeoverChannel.InputAnswered` | src/browser-takeover/websocket-takeover.ts:657-665 | whatever the input did, the use is ended |
| `WebSocketChannel.TakeoverChannel.QueueEndAnswered` | src/browser-takeover/websocket-takeover.ts:664-685 | a failed end or a fatal error fails the channel, a recoverable error does not |
| `WebSocketChannel.TakeoverChannel.CompleteAnswered` | src/browser-takeover/websocket-takeover.ts:698-711 | completed, told and closed with 1000; or failed as stale |
| `WebSocketChannel.TakeoverChannel.QueueReleaseAnswered` | src/browser-takeover/websocket-takeover.ts:529-568 | the end of a fence or of a termination: the release is recorded or its failure, and the peer closed accordingly |
| `WebSocketChannel.TakeoverChannel.FailClosed` | src/browser-takeover/websocket-takeover.ts:713-729 | no effect in a terminal state; otherwise the failure code, the fence, and whether a release is awaited |
| `WebSocketChannel.TakeoverChannel.ReleaseAnswered` | src/browser-takeover/websocket-takeover.ts:825-842 | released, or a recorded release failure |
| `WebSocketChannel.TakeoverChannel.TellFailed` | src/browser-takeover/websocket-takeover.ts:734-740 | the peer is told the last failure and closed with the status that belongs to it |
| `WebSocketChannel.TakeoverChannel.PushFrame` | src/browser-takeover/websocket-takeover.ts:509-527 | ignored, refused, made pending, or sent |
| `WebSocketChannel.TakeoverChannel.ReplacePendingFrame` | src/browser-takeover/websocket-takeover.ts:756-759 | the older pending frame counts as dropped |
| `WebSocketChannel.TakeoverChannel.SetDrainTimer` | src/browser-takeover/websocket-takeover.ts:761-767 | one timer, only while open |
| `WebSocketChannel.TakeoverChannel.SendFrameLoop` | src/browser-takeover/websocket-takeover.ts:606-615 | the top of the send loop |
| `WebSocketChannel.TakeoverChannel.DrainTimerFires` | src/browser-takeover/websocket-takeover.ts:761-793 | what the timer does with the pending frame |
| `WebSocketChannel.TakeoverChannel.FrameBeginAnswered` | src/browser-takeover/websocket-takeover.ts:616-620 | a frame is given to the peer once its use began |
| `WebSocketChannel.TakeoverChannel.FrameSendAnswered` | src/browser-takeover/websocket-takeover.ts:657-665 | the use is ended whether or not the send worked |
| `WebSocketChannel.TakeoverChannel.FrameEndAnswered` | src/browser-takeover/websocket-takeover.ts:621-639 | a delivered frame is counted and the pending one taken up; errors fail the channel |
| `WebSocketChannel.TakeoverChannel.FrameReleaseAnswered` | src/browser-takeover/websocket-takeover.ts:630-639 | the loop ends after its fence |
| `WebSocketChannel.TakeoverChannel.Start` | src/browser-takeover/websocket-takeover.ts:422-427 | a start call while open |
| `WebSocketChannel.TakeoverChannel.StartBeginAnswered` | src/browser-takeover/websocket-takeover.ts:642-656 | its begin |
| `WebSocketChannel.TakeoverChannel.StartSendAnswered` | src/browser-takeover/websocket-takeover.ts:657-665 | its send |
| `WebSocketChannel.TakeoverChannel.StartEndAnswered` | src/browser-takeover/websocket-takeover.ts:664-685 | its end |
| `ChannelRuns.NextOk` | src/browser-takeover/websocket-takeover.ts:422-843 | every step keeps the invariant of the channel, under every interleaving |
| `ChannelRuns.InputFence` | src/browser-takeover/websocket-takeover.ts:429-507 | admission never reopens, and once closed no run dispatches anything more |
| `ChannelRuns.DispatchedInOrder` | src/browser-takeover/websocket-takeover.ts:429-507 | dispatched inputs are received inputs in order, each once and one at a time; admission implies open |
| `ChannelRuns.QueueAccounting` | src/browser-takeover/websocket-takeover.ts:570-595 | the counters equal what is queued, never pass the largest counts reported, and those never pass the limits |
| `ChannelRuns.CompletesOnce` | src/browser-takeover/websocket-takeover.ts:688-741 | completion is requested at most once and the failure fence takes effect at most once |
| `ChannelRuns.UsesBalance` | src/browser-takeover/websocket-takeover.ts:642-686 | every use begun is ended once: begun minus ended are exactly the uses in progress |
| `ChannelRuns.AuthorityIsGivenBack` | src/browser-takeover/websocket-takeover.ts:529-568 | a channel that stopped admitting while open has something queued that closes it; one that left open and is at rest has released its authority or had a release rejected |
| `ChannelRuns.FramesInOrder` | src/browser-takeover/websocket-takeover.ts:606-640 | frames are handed over and delivered in the order pushed, one at a time: sends begun minus sends answered is at most one; the pending frame is newer than all handed over |
| `ChannelRuns.FramesAccounted` | src/browser-takeover/websocket-takeover.ts:509-640 | accepted = sent + dropped + pending + in flight + discarded, with nothing discarded while open and at most two ever |
| `ChannelRuns.NoLostWakeUp` | src/browser-takeover/websocket-takeover.ts:756-793 | a pending frame implies an open channel and a running loop or a set timer |
| `ChannelNotices.NextTold` | src/browser-takeover/websocket-takeover.ts:422-843 | every step keeps what is reported in step with what happened, under every interleaving |
| `ChannelNotices.LastFailureIsRecorded` | src/browser-takeover/websocket-takeover.ts:713-842 | the last failure is set exactly once something failed, is the release failure exactly if a release was rejected, and is there in every failed state |
| `ChannelNotices.ToldOnce` | src/browser-takeover/websocket-takeover.ts:688-741 | failures told + fences on their way = fences <= 1, and closings told = completions <= 1: the peer is told each exactly once |
| `ChannelNotices.CloseMatchesReason` | src/browser-takeover/websocket-takeover.ts:734-740 | every close has the status of its reason (1011 for transport and release failures, 1008 for the others, 1000 without a failure), and whoever is told a failure is closed for it at once |
| `ChannelProgress.InputAccount` | src/browser-takeover/websocket-takeover.ts:429-507 | every input received over any run was given to onInput, or is queued, or awaits its begin, or was lost in one of the four ways the code has: no room, a turn or a begin answered when the channel takes nothing more, a begin that failed |
| `ChannelProgress.NothingLostWhileAdmitting` | src/browser-takeover/websocket-takeover.ts:429-507 | as long as the channel admits input no input is lost |
| `ChannelProgress.MessageTurn` | src/browser-takeover/websocket-takeover.ts:454-507 | what the turn of a message leads to, by its kind: a begin for input and ping, completion for the end, a failure with its own code for malformed and disallowed ones; and nothing once the channel takes nothing more |
| `ChannelProgress.OtherTurn` | src/browser-takeover/websocket-takeover.ts:529-568 | the turn of a refusal, a disconnect and a revocation |
| `ChannelProgress.ArrivalAnswer` | src/browser-takeover/websocket-takeover.ts:429-456 | a message is queued exactly when there is room; one that is not closes admission and fails the channel when its turn comes |
| `ChannelProgress.OutcomeAnswer` | src/browser-takeover/websocket-takeover.ts:486-500 | an input outcome that can be recovered from leaves the channel open, any other fails it with its code |
| `ChannelProgress.BeginAnswer` | src/browser-takeover/websocket-takeover.ts:642-656 | a use that cannot begin fails the channel; one that begins dispatches its input or answers its ping |
| `ChannelProgress.CompletionAnswer` | src/browser-takeover/websocket-takeover.ts:698-711 | closed with 1000 and released, and told; or failed as stale |
| `ChannelProgress.TerminationAnswer` | src/browser-takeover/websocket-takeover.ts:529-568 | authority is given back, or the release failure is told |
| `ChannelProgress.LastFrameIsKept` | src/browser-takeover/websocket-takeover.ts:509-527 | while the channel is open the last frame pushed was delivered, or is being sent, or is the pending one |
| `ChannelProgress.PushAnswer` | src/browser-takeover/websocket-takeover.ts:509-527 | a valid frame pushed while open is taken if the buffer can be read, and goes out at once when nothing is in the way; an invalid one fails the channel |
| `ChannelProgress.TimerAnswer` | src/browser-takeover/websocket-takeover.ts:761-793 | the timer sends the pending frame once the buffer has room and is set again before |
| `ChannelProgress.FrameBeginAnswer` | src/browser-takeover/websocket-takeover.ts:616-620 | a frame whose use began is handed to the peer; otherwise the channel fails |
| `ChannelProgress.FrameEndAnswer` | src/browser-takeover/websocket-takeover.ts:621-639 | a frame delivered counts and the one that waits goes out next; a failed send or end fails the channel |
| `ChannelProgress.StartAccount` | src/browser-takeover/websocket-takeover.ts:422-427 | over any run: each start call while open asks to begin once, each use begun sends the ready message once, and each is ended |
| `ChannelProgress.StartFailure` | src/browser-takeover/websocket-takeover.ts:642-686 | what fails a start fails the channel with its code |
| `Coordinator.TransportCoordinator.Enqueue` | src/browser-takeover/managed-transport-coordinator.ts:280-285 | requests are queued in order |
| `Coordinator.TransportCoordinator.RunNextRequest` | src/browser-takeover/managed-transport-coordinator.ts:87-179 | start once; advance, fallback and revoke only if the request holds the active lease; the rest is refused |
| `Coordinator.TransportCoordinator.BeginStart` | src/browser-takeover/managed-transport-coordinator.ts:200-206 | the driver is started with the next generation |
| `Coordinator.TransportCoordinator.StartAnswered` | src/browser-takeover/managed-transport-coordinator.ts:206-256 | activation, an empty locator, a refused start |
| `Coordinator.TransportCoordinator.Activate` | src/browser-takeover/managed-transport-coordinator.ts:237-256 | the lease, the generation and the active driver |
| `Coordinator.TransportCoordinator.GoOn` | src/browser-takeover/managed-transport-coordinator.ts:156-165 | a fallback tries the next driver, anything else gives up |
| `Coordinator.TransportCoordinator.CleanupAnswered` | src/browser-takeover/managed-transport-coordinator.ts:207-211 | the generation is used up after the cleanup |
| `Coordinator.TransportCoordinator.RevokeAnswered` | src/browser-takeover/managed-transport-coordinator.ts:119-181 | a rejected revoke changes nothing; otherwise the transition goes on or the plan ends |
| `Coordinator.TransportCoordinator.Proceed` | src/browser-takeover/managed-transport-coordinator.ts:120-167 | what advance, fallback and revoke do after the revoke: the next driver, or the end of the plan with a generation used up |
| `Coordinator.TransportCoordinator.StartSync` | src/browser-takeover/managed-transport-coordinator.ts:105-114 | the synchronous first start with each way it can fail |
| `CoordinatorRuns.NextOk` | src/browser-takeover/managed-transport-coordinator.ts:87-285 | every step keeps counters, active driver and log in step, for any plan and any answers |
| `CoordinatorRuns.StartsInPlanOrder` | src/browser-takeover/managed-transport-coordinator.ts:87-235 | the k-th start of any log is of driver k of the plan: in order, each once, none skipped |
| `CoordinatorRuns.RevokedBeforeNextStart` | src/browser-takeover/managed-transport-coordinator.ts:116-137 | a driver that became active has finished its revoke before a later one starts |
| `CoordinatorRuns.AskedBeforeNextStart` | src/browser-takeover/managed-transport-coordinator.ts:200-256 | every driver started has at least been asked to revoke before another starts |
| `CoordinatorRuns.LeaseGenerationsIncrease` | src/browser-takeover/managed-transport-coordinator.ts:237-256 | lease generations strictly increase |
| `CoordinatorRuns.OneSuccessor` | src/browser-takeover/managed-transport-coordinator.ts:116-167 | the leases that requests held when they got a successor are all different: of all requests holding one lease at most one gets a successor, and that one is newer |
| `CoordinatorRuns.CountersBounded` | src/browser-takeover/managed-transport-coordinator.ts:87-285 | generation <= n + 1, transitions <= n, and the active lease is the current generation of a driver of the plan |
| `CoordinatorRuns.OverIsForEver` | src/browser-takeover/managed-transport-coordinator.ts:87-181 | once started with nothing active and nothing running, nothing is ever started or active again |
| `CoordinatorRuns.GenerationSharedIff` | src/browser-takeover/managed-transport-coordinator.ts:200-235 | of two consecutive starts the later gets the next generation exactly when the earlier driver became active or some revoke after it did not throw at once; otherwise both share one |
| `CoordinatorRuns.FailedStartsMayShareGeneration` | src/browser-takeover/managed-transport-coordinator.ts:206-212 | a run with two failed starts of one fallback under the same generation |
| `CoordinatorAnswers.TurnAnswer` | src/browser-takeover/managed-transport-coordinator.ts:87-179 | what the turn of a request does in every reachable state: start once; advance, fallback and revocation ask the active driver to revoke exactly if they hold its lease (a revocation also without one); with any other lease driver, generation and log stay as they were |
| `CoordinatorAnswers.RevokedAnswer` | src/browser-takeover/managed-transport-coordinator.ts:119-181 | a rejected revoke leaves the driver active; otherwise an advance or fallback starts driver index + 1 under the next generation, and at the end of the plan or for a revocation a generation is used up and all is over |
| `CoordinatorAnswers.StartAnswer` | src/browser-takeover/managed-transport-coordinator.ts:206-256 | a located start is active under its generation and is the successor of the lease the request held; a fallback that misses goes on with driver index + 1, anything else gives up |
| `CoordinatorAnswers.CleanupAnswer` | src/browser-takeover/managed-transport-coordinator.ts:207-211 | the generation is used up after an empty locator's revoke, and the transition goes on or gives up |
| `CoordinatorAnswers.StartSyncAnswer` | src/browser-takeover/managed-transport-coordinator.ts:105-114 | a second first start does nothing; the first serves driver 0 under generation 1 or is over |
| `CoordinatorAnswers.HolderSucceeds` | src/browser-takeover/managed-transport-coordinator.ts:116-167 | whoever holds the active lease, and whose revoke and start succeed, gets the next driver of the plan under the next generation, in a run given step by step |
| `JsonText.StringRead` | src/core/invocation.ts:4-7 | a printed string literal is read back by a reader of section 7 of RFC 8259, and ends where it ends |
| `JsonText.QuotedPlain` | src/core/invocation.ts:4-7 | a literal holds no control character and no lone surrogate |
| `CanonicalJson.InsertOk` | src/core/invocation.ts:7 | inserting keeps the keys strictly ascending by code units and adds the key |
| `CanonicalJson.SortedKeysOk` | src/core/invocation.ts:7 | the sorted keys are ascending and are the object's keys |
| `CanonicalJson.AscendingUnique` | src/core/invocation.ts:7 | equal sets of keys are sorted alike |
| `JsonNumber.NumberEnds` | src/core/invocation.ts:4 | a number of section 6 of RFC 8259 ends where it ends, whatever follows that cannot belong to it |
| `JsonNumber.NumberTextUnits` | src/core/invocation.ts:4 | a number holds digits, signs, points and exponent letters only |
| `CanonicalJson.CanonicalTextReadsBack` | src/core/invocation.ts:3-8 | the canonical text is JSON text: a reader of RFC 8259 gets the value back, objects as maps |
| `CanonicalJson.ReadPrinted` | src/core/invocation.ts:3-8 | the same for a value inside a text, whatever follows it |
| `CanonicalJson.PrintsAlikeIffEqual` | src/core/invocation.ts:3-8 | two JSON values print alike exactly when they are equal with objects taken as maps |
| `CanonicalJson.PrintPlain` | src/core/invocation.ts:3-8 | the canonical text holds no NUL or other control character and no lone surrogate |
| `JsonLayout.EscapeText` | src/core/invocation.ts:4-7 | every escape by the table of JSON.stringify, lone surrogates by their four lower-case digits |
| `JsonLayout.LiteralText` | src/core/invocation.ts:4-7 | a literal is its code points escaped in order between quotes |
| `JsonLayout.LessIsBefore` | src/core/invocation.ts:7 | keys are ordered by the first code unit in which they differ, a proper start first |
| `JsonLayout.ValueText` | src/core/invocation.ts:3-8 | the text of every value: literals, numbers as given, arrays in order, objects with ascending keys, joined by commas and colons |
| `Invocation.DigestedScalars` | src/core/invocation.ts:9-11 | the digested bytes are the encoding of name, a zero and the canonical text |
| `Invocation.ScalarsStandFor` | src/core/invocation.ts:10 | the scalar values of a well-formed text stand for that text, and a lone surrogate for U+FFFD |
| `Invocation.EncodeAllRead` | src/core/invocation.ts:10 | the UTF-8 bytes determine the scalar values |
| `Invocation.DigestedAlikeIff` | src/core/invocation.ts:9-11 | two calls are digested alike exactly when the scrubbed names and the argument values agree, NUL in names included |
| `Invocation.WellFormedNamesDetermined` | src/core/invocation.ts:9-11 | for well-formed names the digested bytes determine name and arguments |
| `Invocation.LoneSurrogatesCollide` | src/core/invocation.ts:9-11 | two different names digested alike |
| `TextMirror.TextReplacementDelta` | src/browser-takeover/browser-human-input.ts:52-61 | the loop finds the longest common prefix of code points |
| `TextMirror.TextReplacementMutation` | src/browser-takeover/browser-human-input.ts:72-101 | the delta, or its extension by the keyboard's payload |
| `TextMirror.MutationMirrors` | src/browser-takeover/browser-human-input.ts:52-101 | applied to the old value, delta and mutation give the new value and `next`, and `next` extends the new value |
| `TextMirror.PayloadKept` | src/browser-takeover/browser-human-input.ts:72-101 | the keyboard's payload is typed as a whole exactly when it goes on where the insertion ends and adds code points; in every other case the delta is used |
| `TextMirror.RemoteFollowsMirror` | src/browser-takeover/browser-human-input.ts:52-101 | over any session of edits the remote field stays equal to the mirror |
| `TextMirror.FewestBackspacesIff` | src/browser-takeover/browser-human-input.ts:52-61 | the delta uses the fewest backspaces of all suffix rewrites, for every new value, exactly when the old value has no lone leading surrogate |
| `TextMirror.WellFormedSettled` | src/browser-takeover/browser-human-input.ts:52-61 | in particular for every well-formed old value |
| `XTestHelper.InputState.InjectMove` | native/linux-xtest-helper.c:144-153 | one motion; the position is known, as the target, exactly if it was accepted and verified |
| `XTestHelper.InputState.InjectButtonDown` | native/linux-xtest-helper.c:155-167 | a press only at a known position; accepted but unverified presses are cleaned up |
| `XTestHelper.InputState.InjectButtonUp` | native/linux-xtest-helper.c:169-175 | one release attempt; the claim ends only if it is verified |
| `XTestHelper.InputState.CleanupPressedButton` | native/linux-xtest-helper.c:177-187 | nothing without an own press; otherwise a motion and a release, and the claim ends |
| `XTestHelper.InputState.InjectKeyDown` | native/linux-xtest-helper.c:189-203 | only a key seen up and only one at a time |
| `XTestHelper.InputState.InjectKeyUp` | native/linux-xtest-helper.c:205-213 | releases the held key, and the claim ends only if verified |
| `XTestHelper.InputState.CleanupPressedKey` | native/linux-xtest-helper.c:215-226 | the same for the key |
| `XTestHelper.InputState.CleanupAll` | native/linux-xtest-helper.c:228-232 | afterwards nothing is held, whatever the server answers; success only if every release it made was accepted and verified |
| `XTestHelper.InputState.RunMove` | native/linux-xtest-helper.c:264-276 | refused exactly for a wrong count or coordinates out of bounds; otherwise one motion to the two numbers given, answered OK exactly if the server granted all it was asked |
| `XTestHelper.InputState.RunDown` | native/linux-xtest-helper.c:278-293 | refused exactly for wrong words, a held button or bounds; otherwise it records the cleanup position and presses at a known pointer, OK exactly if all was granted |
| `XTestHelper.InputState.RunUp` | native/linux-xtest-helper.c:295-306 | refused exactly for wrong words or no held button; otherwise it releases, OK exactly if all was granted, and then verified |
| `XTestHelper.InputState.RunCancel` | native/linux-xtest-helper.c:308-319 | refused exactly for wrong words; otherwise the button is up, OK exactly if every release made was granted |
| `XTestHelper.InputState.RunKeyDown` | native/linux-xtest-helper.c:321-333 | refused exactly for other words than RETURN and BACKSPACE or a held key; otherwise it presses the Return key for RETURN and the BackSpace key for BACKSPACE, by their codes, OK exactly if it was seen up before and all was granted |
| `XTestHelper.InputState.RunKeyUp` | native/linux-xtest-helper.c:335-347 | refused exactly for another word than the held key's; otherwise it releases that key, OK exactly if all was granted |
| `XTestHelper.InputState.RunCancelKey` | native/linux-xtest-helper.c:349-360 | refused exactly for wrong words; otherwise no key is held, OK exactly if every release made was granted |
| `XTestHelper.InputState.RunClose` | native/linux-xtest-helper.c:362-373 | CLOSE ends the loop, with 0 only if nothing is held and every release it made was accepted and verified |
| `XTestHelper.InputState.RunLine` | native/linux-xtest-helper.c:256-377 | one reply for each command, none for a blank or overlong one; code 0 for a clean CLOSE only |
| `XTestHelper.InputState.RunProtocol` | native/linux-xtest-helper.c:240-380 | the commands of some beginning of the input are answered in turn, OK up to the last; it ends early only with an error or a CLOSE; code 0 only if nothing is held and every release was accepted and verified, the cleanup at the end of the input included |
| `XTestHelper.LongRead` | native/linux-xtest-helper.c:62-71 | a token is read as v exactly if it is a numeral of v (skipped space, a sign, leading zeros and the digits of the number) and v fits into a long |
| `XTestHelper.InputState.CommandsTaken` | native/linux-xtest-helper.c:264-373 | in literal words: exactly which commands are not refused, coordinates being numerals on the screen, and exactly which are refused for the state |
| `XTestHelper.RunHelper` | native/linux-xtest-helper.c:382-417 | an unusable display ends with 3 and does nothing; for every input and every answer of the server commands are answered in turn, presses and releases are disciplined and nothing is held at exit; exit code 0 only if every release ever made was accepted and verified |
| `XTestHelper.EveryButtonPressIsReleased` | native/linux-xtest-helper.c:155-187 | each accepted button press is followed by a release attempt before exit |
| `XTestHelper.ButtonReleasesAreOwn` | native/linux-xtest-helper.c:169-187 | no button release outside an episode begun by an own accepted press |
| `XTestHelper.EveryKeyPressIsReleased` | native/linux-xtest-helper.c:189-226 | each accepted key press is followed by an attempt to release the same key |
| `XTestHelper.KeyReleasesAreOwn` | native/linux-xtest-helper.c:205-226 | no key is released but the one the helper pressed |
| `XTestHelper.KeyPressesAreOfFreeKeys` | native/linux-xtest-helper.c:189-199 | each key press follows the sight of that key up |

## Left out

- HTTP routing, pages, client scripts, process spawning, X11 and AT-SPI plumbing, ICE and TURN, and the internals of the
  WebSocket and WebRTC libraries: what they answer is an arbitrary choice of the environment.
- HMAC strength, randomness and constant-time comparison: tokens are their messages, and fresh ids and tickets are
  arguments.
- AuthorityRuns.StoredHandleIsCurrent: holds while nobody but the authority claims or reconnects; other callers may use
  the manager in every other way.
- AnnexBStream.AnnexBRoundTrip: is for units as section 7.4.1 of ITU-T H.264 has them: not empty, no start code inside,
  no zero byte at the end; each picture begins with a delimiter and fits a record.
- MediaPipeline.EndToEnd: is moreover for units of types 1 to 23, those that RFC 6184 lets a payload carry on its own.
- Clock readings are arguments of each operation, in the order the code reads its clock; runs assume that they do not
  decrease and that record ids are fresh and free of NUL.
- Session.TakeoverSessionManager.CompleteVerified: the list it returns is a map from ids, since the records are a map;
  the order of the reports, which is that of insertion, is not modelled.
- Authority.WebSocketSessionAuthority.CompleteLease: the completion hook, which is given the completion that is
  returned, is not part of this model, and so not what happens when it throws.
- `LatestFrameWriter` (`src/browser-takeover/linux-webrtc-host-cli.ts:262-294`): after a control record an older frame
  can be written after a newer one, so it keeps no order worth stating.
- The memory an Annex-B parser holds while a unit is incomplete is not bounded by the code, and no bound is stated.
- `parseHumanMessage` and the utf-8 length of a message: the kind and size of each message are given.
- ChannelRuns.AuthorityIsGivenBack: says nothing about a send after a terminal state, nor that release is called once;
  the code re-checks no state after `beginUse`, and a queued disconnect can overlap a failure of the frame path.
- Latency records, the input stage and the buffered-amount counters of the channel diagnostics.
- CoordinatorRuns.RevokedBeforeNextStart: is about drivers that became active; after an empty locator the revoke is
  called but not awaited, and `CoordinatorRuns.AskedBeforeNextStart` is what holds for every driver.
- Locator texts of the coordinator: only whether one is blank matters. The policy check that builds the plan is not
  modelled; plans are any non-empty sequence of attempts.
- VideoScheduler.FrameScheduler.EnqueueConnectedFrame: the 250 ms in which a second keyframe request is swallowed
  (`src/browser-takeover/webrtc-runtime.ts:862-867`) are not modelled; requests are counted as they are made.
- VideoScheduler.FrameScheduler.ResumeSuspended: the checks that may refuse a resumption, and one that meets a session
  ended while its credentials were prepared, are not modelled; a resumption that fails later is one followed by an end.
- Rtp.RtpSender.SendFrame: which packets are lost or reordered on the way is not modelled; the receiver gets them in
  order.
- The timing of the drain timer: it may fire at any moment after it is set.
- JSON values are the values of JSON itself: `undefined`, functions, big integers and objects with their own `toJSON`
  are not modelled, and a number is the text printed for it, any number text of section 6 of RFC 8259. SHA-256 is not
  modelled: the theorems are about the digested bytes.
- Line-break edits, input-method composition and scroll helpers of the browser input module.
- Reading lines and splitting them at white space in the XTEST helper; each line is given as its tokens, or as too long.
- Core lifecycle, checkpoints, hosted workers, crash classifiers and reconnect delays.
