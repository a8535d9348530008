# Verified model of astra-shell

astra-shell keeps remote terminals alive and shows them on a client that may lose
its network at any time.  This project models its protocol and state-machine cores in
Dafny and proves properties of every input, every run or every reachable state.

| file | what it models |
|---|---|
| `Basics.dfy` | options, bytes, integer widths, UUID texts and the compression rule, shared by the others |
| `TerminalState.dfy` | Terminal State v2 and its validators |
| `ViewportDiff.dfy` | the sparse delta between two live states and the dense diff between two full states |
| `StreamEndpoints.dfy` | the server's window, the client's replica and the datagram mailbox |
| `StreamInvariants.dfy` | what each endpoint operation keeps; repairs; cumulative deltas |
| `StreamProtocol.dfy` | server and client joined by a lossy, duplicating, reordering datagram channel and two FIFO streams |
| `StreamRetention.dfy` | why no base is ever missing, and recovery from every reachable state |
| `InputLease.dfy` | input leases, recovery tokens and authority generations |
| `Renderer.dfy` | the incremental viewport renderer and the character display it drives |
| `RendererLimits.dfy` | exactly when incremental and full repaint agree |
| `HistoryExport.dfy` | the interning export of rows, and when what is exported is valid |
| `HistoryPaging.dfy` | history pages and paging through the whole history |
| `HistoryPageLimits.dfy` | pages that fail |
| `Uploads.dfy` | resumable uploads over a modelled disk |
| `Quota.dfy` | layered resource quotas under interleaving |
| `ProtobufWire.dfy` | varints and fields of the protobuf wire format, with their lengths |
| `StateWire.dfy` | the encoding of rows, styles and links of a history page, with size bounds |
| `ViewportFragments.dfy` | version 3 fragmentation |
| `ReliableTransfer.dfy` | compression, chunking and reassembly on the reliable stream |
| `MessageFrames.dfy` | length-prefixed frames and the cancel-safe reader |
| `QueuedWriter.dfy` | the bounded handoff to one stream writer |
| `Negotiation.dfy` | capability negotiation between client, server and worker |

## How the model is built

Code that updates objects in place is modelled by a class with the same fields.  Each
method is proved equal to a pure transition function, and the properties of whole runs are
proved about those functions.  A run is a list of events; `After` folds the transition
function over it and yields `None` at an event that cannot happen.  Fields such as `log`,
`accepted`, `supplied` or `dead` only record the history of a run, so that properties can
speak about it.  Errors are `Err`, `None` or an explicit outcome.

What comes from outside is a parameter or an event: clocks, fresh UUIDs (never reused),
datagram loss, duplication and order, whether a delta fits a datagram, which system calls
fail, how many bytes a failing write leaves behind, what other processes do to the disk, how
a stream splits its bytes, which reads are cancelled, which text is a single grapheme cluster, and
the width that a terminal gives to a grapheme.  SHA-256 is an arbitrary function and zstd an arbitrary codec with an inverse.

Epochs are the ordinals of their UUIDs: the code compares epochs only for equality, and a
later epoch is a fresh UUID.

## What turned out to be false, and when it holds

* An honest repair request can be refused as naming a future base.  Generations restart in
  every epoch, and `repair` compares the missing base with the generation of a target that
  may belong to a newer epoch.  `RepairRejected` gives the exact condition, and
  `RepairCanBeRejected` an instance: a receiver without the base of a delta that really left the
  window `RekeyedIsReached` builds up.  `NoRepairNeeded` shows that with the retention the code
  uses no run ever sends a repair, so the refusal is never met.
* Incremental and full repaint do not always agree.  If an OSC 8 hyperlink is open on the
  display when rendering starts, cells without a link are drawn with it until the first linked
  cell closes it (`OpenLinkBreaks`).  If the display has fewer lines than the state has rows, the
  cursor stops at the last line and rows are painted over each other (`TallStateBreaks`).
  `AgreementIsExact` proves that these are the only reasons: on every display and for every number
  of rows, all runs agree if and only if there is a line for every row and no link is open at the
  start.  One corner is different: a single row on a single column, where every cell is drawn over
  the one before.  There an open link does no harm, provided that the terminal draws every text and
  no text holds a control character.  As soon as one does, a cell can close the link without drawing,
  and the corner is no exception either.
* A history page can fail although the engine's rows are in order.  Its styles or hyperlinks may not
  fit their tables of 4096 (`ColorfulPageFails`), its encoding may exceed four megabytes, as 512 rows
  of a thousand plain characters do (`WidePageFails`), or the page validator refuses a cell that the
  engine stores: a link with an empty target (`EmptyTargetFails`), a target or identifier
  that is too long (`LongTargetFails`), a text of more than 256 bytes (`LongTextFails`), a text that is not exactly one
  grapheme cluster (`SplitTextFails`).  `PageOk` proves that, in a history within its capacity, these
  are the only reasons.  `SmallPageSucceeds` bounds the encoding by numbers of rows, columns, styles and
  links and the longest texts, and `PlainPageSucceeds` shows that up to 370 columns of text
  without links never meet the limit.
* The byte count of a pending transfer is wrong after the push that makes it exceed its declared
  size, because it is raised before it is checked.  `PushKeepsAccounts` proves that the accounting
  is right after every other push, failed or not, and `LongChunkSpoils` gives an instance.
  `SpoiledForEver` shows what follows: the assembler publishes nothing any more.

## Model

| member | source | states |
|---|---|---|
| `TerminalState.CellsFitColumns` | src/terminal_state_v2.rs:798-846 | a row that passes the cell validator has no more cells than columns |
| `TerminalState.AnchorsAscend` | src/terminal_state_v2.rs:723-770 | anchors of validated rows strictly ascend between any two rows, not only neighbours |
| `ViewportDiff.SparseRowPatches` | src/terminal_streaming.rs:961-1014 | the patch loop yields exactly the patches of the changed rows, each against its anchored or positional reference row |
| `ViewportDiff.ApplySparseRows` | src/terminal_streaming.rs:1017-1049 | the apply loop succeeds exactly for in-range, non-repeating patches and then yields the spliced rows |
| `ViewportDiff.PatchRebuildsRow` | src/terminal_streaming.rs:961-1049 | the patch made for any row, moved or not, is applicable and rebuilds exactly that row |
| `ViewportDiff.SparseRowsRoundTrip` | src/terminal_streaming.rs:961-1049 | applying all patches to the base rows gives the target rows |
| `ViewportDiff.InheritUndoesStrip` | src/terminal_streaming.rs:873-959 | for every combination of inherited fields the receiver restores the metadata, and no field is both inherited and sent |
| `ViewportDiff.DeltaRoundTrip` | src/terminal_streaming.rs:873-1145 | for all live states of one epoch and geometry with a later target, encoding succeeds and decoding on the base gives exactly the target |
| `ViewportDiff.DenseRoundTrip` | src/terminal_sync.rs:113-330 | the dense diff between any two valid states of an epoch, scrollback included, rebuilds the target |
| `StreamEndpoints.StreamingStateWindow.PrepareUpdate` | src/terminal_streaming.rs:451-479 | the method is the window's transition for new output, errors included |
| `StreamEndpoints.StreamingStateWindow.RetryLatest` | src/terminal_streaming.rs:484-507 | the retry transition |
| `StreamEndpoints.StreamingStateWindow.RekeyLatest` | src/terminal_streaming.rs:512-524 | the re-key transition |
| `StreamEndpoints.StreamingStateWindow.Repair` | src/terminal_streaming.rs:526-564 | the repair transition with every refusal |
| `StreamEndpoints.StreamingStateWindow.Acknowledge` | src/terminal_streaming.rs:578-628 | the acknowledgement transition with every refusal |
| `StreamEndpoints.StreamingStateWindow.InstallKeyframe` | src/terminal_streaming.rs:661-678 | installing a keyframe retires the old epoch and fails while one is unacknowledged |
| `StreamEndpoints.StreamingStateWindow.Remember` | src/terminal_streaming.rs:680-701 | bounded retention that never evicts the base |
| `StreamEndpoints.StreamingReplica.ApplyKeyframe` | src/terminal_streaming.rs:801-819 | the replica's transition for a keyframe |
| `StreamEndpoints.StreamingReplica.ApplyDatagram` | src/terminal_streaming.rs:821-855 | the replica's transition for a delta, stale, missing-base and error cases included |
| `StreamEndpoints.StreamingReplica.Remember` | src/terminal_streaming.rs:857-870 | bounded retention that keeps the pinned base and the current state |
| `StreamEndpoints.DatagramMailbox.Deliver` | src/client.rs:172-184 | the mailbox keeps only a newer target of the current epoch |
| `StreamEndpoints.DatagramMailbox.CommitKeyframe` | src/client.rs:272-287 | a committed keyframe moves the mailbox to its epoch and generation |
| `StreamWindowInvariants.PrepareUpdateOk` | src/terminal_streaming.rs:451-479 | new output never fails, keeps the window invariant, makes the new state the goal and emits only gated updates |
| `StreamWindowInvariants.RetryLatestOk` | src/terminal_streaming.rs:484-507 | a retry keeps invariant and goal |
| `StreamWindowInvariants.RekeyLatestOk` | src/terminal_streaming.rs:512-524 | a re-key keeps invariant and goal and sends a keyframe only from an acknowledged base |
| `StreamWindowInvariants.AcknowledgeOk` | src/terminal_streaming.rs:578-628 | every acknowledgement up to the newest sent state, of this or a retired epoch, evicted or not, is accepted and only moves forward |
| `StreamWindowInvariants.RepairRejected` | src/terminal_streaming.rs:526-564 | an honest repair is refused if and only if a target of a newer epoch with a smaller generation waits |
| `StreamWindowInvariants.RepairCanBeRejected` | src/terminal_streaming.rs:526-564 | a window whose base was re-keyed after a delta refuses the request that a replica without the delta's base makes, while a newer epoch waits |
| `StreamWindowInvariants.RekeyedIsReached` | src/terminal_streaming.rs:420-524 | that window is reached from a new one by an acknowledgement, a delta and a re-key |
| `StreamReplicaInvariants.DatagramOk` | src/terminal_streaming.rs:821-870 | a delta from any sender state never fails the replica, and commits exactly its target if and only if the base is retained and the target newer |
| `StreamReplicaInvariants.CumulativeDeltas` | src/terminal_streaming.rs:801-871 | any pile of deltas on a committed base, in any order and multiplicity, never misses the base and ends at the greatest target, within bounded retention |
| `StreamProtocol.NextOk` | src/server.rs:1709-1934 | every step of server, client and network keeps the joint invariant |
| `StreamProtocol.EndToEndSafety` | src/client.rs:922-1020 | in every run each committed state is exactly the one supplied under its epoch and generation, generations strictly increase within an epoch, epochs never go back and the client never fails |
| `StreamProtocol.AckGating` | src/terminal_streaming.rs:451-628 | in every run at most the last keyframe is unacknowledged, every delta starts from a state the client committed, and retention is bounded on both sides |
| `StreamRetention.NoRepairNeeded` | src/terminal_streaming.rs:680-701 | with equal retention of 128 on both sides the base of every deliverable delta is retained, no repair is ever sent and neither side ever fails |
| `StreamRetention.Recoverable` | src/terminal_streaming.rs:512-524 | from every reachable state one exchange, one re-key and a second exchange, without any datagram, leave the client at the newest supplied state with nothing pending |
| `InputLease.Terminal.Acquire` | src/terminal.rs:233-337 | the method is the authority's acquire transition: resume, fresh grant, takeover and refusals |
| `InputLease.Terminal.Renew` | src/terminal.rs:360-377 | renewal under a valid lease and sequence extends the expiry |
| `InputLease.Terminal.ReleaseCommand` | src/terminal.rs:379-388 | an explicit release ends lease and recovery record |
| `InputLease.Terminal.ExpireIfDue` | src/terminal.rs:390-407 | a due lease ends and the recovery record stays |
| `InputLease.Terminal.Release` | src/terminal.rs:409-417 | end of stream ends the named lease only |
| `InputLease.Terminal.WriteInput` | src/terminal.rs:419-429 | input takes effect only if it is validated, and consumes its sequence number |
| `InputLease.Terminal.Resize` | src/terminal.rs:431-475 | likewise for a resize with valid dimensions |
| `InputLease.Terminal.Validate` | src/terminal.rs:485-503 | the current, unexpired lease with a new sequence number, or nothing |
| `InputLease.NextOk` | src/terminal.rs:233-503 | every event keeps the invariant on issued leases, tokens and the command log |
| `InputLease.AcceptedUnderCurrentLease` | src/terminal.rs:485-503 | whatever a step accepts was sent under the current unexpired lease with a larger sequence number |
| `InputLease.LeaseFencing` | src/terminal.rs:360-503 | in every run the sequence numbers accepted under a lease strictly ascend, and every issued lease is either current or dead |
| `InputLease.DeadLeaseStaysDead` | src/terminal.rs:233-503 | after a lease was replaced, expired or released nothing is accepted under its ID in any continuation |
| `InputLease.GrantsRaiseGeneration` | src/terminal.rs:242-337 | a resume keeps token and generation; any other grant issues a fresh token above every earlier generation |
| `InputLease.FreshGrantNeedsNoOwner` | src/terminal.rs:242-337 | a grant without token and takeover means that no recovery record and no unexpired lease existed |
| `InputLease.RevokedNeverAuthorizes` | src/terminal.rs:242-337 | a superseded, released or lost token never resumes in any continuation |
| `InputLease.TokensLiveOrRevoked` | src/terminal.rs:242-337 | at most one token is live; every other issued token is revoked |
| `InputLease.DeviceComesBack` | src/terminal.rs:233-417 | whatever happens short of an accepted takeover or an accepted release, other clients' attaches included, the recorded device resumes with its token and generation |
| `InputLease.RecordSurvives` | src/terminal.rs:233-417 | an event leaves a device's record and generation alone if and only if it is neither an accepted takeover nor an accepted release |
| `InputLease.FencedAttachment` | src/server.rs:2025-2056 | an attachment whose lease is dead or absent passes no command that would be accepted, whatever lease it names |
| `ViewportRendering.ViewportRenderer.Render` | src/terminal_engine.rs:468-493 | a valid state is rendered against the state shown last and remembered; an invalid one changes nothing |
| `ViewportRendering.ViewportRenderer.Invalidate` | src/terminal_engine.rs:495-497 | invalidating forgets the state shown last |
| `ViewportRendering.RenderScreen` | src/terminal_engine.rs:500-630 | the nested loops write exactly the frame's control functions, skipping unchanged rows |
| `ViewportRendering.RowPaints` | src/terminal_engine.rs:540-568 | painting a row changes only its line, and that line depends on nothing shown before |
| `ViewportRendering.PrefixIsPlain` | src/terminal_engine.rs:517 | after the prefix, positions and text are unaffected by origin, margin, wrap and insert modes, whatever was set |
| `ViewportRendering.FrameIsFullRepaint` | src/terminal_engine.rs:468-630 | building on a shown state leaves the same display, cursor and modes as clearing and repainting |
| `ViewportRendering.IncrementalRefinesFull` | src/terminal_engine.rs:463-630 | over every run of states, invalidations and foreign output, each incremental render equals a full repaint |
| `ViewportRendering.LineDepictsCells` | src/terminal_engine.rs:540-568 | a painted line shows each printable cell with its style and link, the second column of wide cells, and blanks elsewhere |
| `ViewportRendering.RenditionIsFaithful` | src/terminal_engine.rs:636-700 | two valid styles are drawn alike if and only if they agree in every visible attribute |
| `ViewportRendering.FrameSetsModes` | src/terminal_engine.rs:586-630 | after a frame every input, mouse and paste mode is as the state wants it, with at most one tracking and one encoding mode on |
| `ViewportRendering.RowPaintsUnder` | src/terminal_engine.rs:540-568 | the same whatever link is open: unlinked cells take it over until the first linked cell closes it |
| `RendererLimits.FullRepaint` | src/terminal_engine.rs:500-630 | what a full repaint leaves on any display under any open link: each row under the link left by the rows above, the last row on the last line if rows do not fit |
| `RendererLimits.OpenLinkBreaks` | src/terminal_engine.rs:549-567 | with a link open at the start, on two or more columns, two or more rows that fit, or wherever a text can go undrawn, some state shown twice differs from its full repaint |
| `RendererLimits.TallStateBreaks` | src/terminal_engine.rs:522-543 | on every display with fewer lines than rows, whatever link is open, there are two states whose incremental render differs |
| `RendererLimits.SingleAgrees` | src/terminal_engine.rs:549-567 | one row on one column agrees in every run even under an open link if the terminal draws every text and accepts every link |
| `RendererLimits.AgreementIsExact` | src/terminal_engine.rs:463-630 | on every display, all runs of states of a height agree with full repaints if and only if the display has a line for every row and no link is open at the start, or that single-cell corner applies |
| `HistoryExport.ExportTables.StyleId` | src/terminal_engine.rs:988-1018 | interning a style: the default is zero, a known key keeps its identifier, a full table fails |
| `HistoryExport.ExportTables.LinkId` | src/terminal_engine.rs:1020-1041 | the same for hyperlinks |
| `HistoryExport.ExportTables.ExportGlyphs` | src/terminal_engine.rs:798-826 | the cell loop of a row is the export function |
| `HistoryExport.ExportGlyphsOk` | src/terminal_engine.rs:798-1041 | exporting a row fails if and only if a table overflows, and otherwise reads back as the row without blanks and overhanging cells |
| `HistoryExport.ExportLinesOk` | src/terminal_engine.rs:322-334 | the same for all rows of a message under its final tables |
| `HistoryPaging.Position` | src/terminal_engine.rs:316-320 | the first row at or after the anchor |
| `HistoryExport.CellsValid` | src/terminal_state_v2.rs:798-846 | an exported row passes the cell validator if and only if its texts are short enough |
| `HistoryExport.TablesValid` | src/terminal_state_v2.rs:527-560 | the exported tables pass their validator if and only if every interned link can be sent |
| `HistoryPaging.RowsValid` | src/terminal_state_v2.rs:723-846 | rows and tables of a page are valid if and only if every cell that is sent has an acceptable text and link |
| `HistoryPaging.PageOk` | src/terminal_engine.rs:267-355 | a page succeeds if and only if the history is within its capacity, its styles and links fit their tables, every cell it sends has an acceptable text and link, and its encoding fits the wire limit; it then passes the page validator and reads back as the rows just before the anchor, with the right continuation flag |
| `HistoryPaging.SmallPageSucceeds` | src/terminal_state_v2.rs:443-457 | an estimate from rows, columns, longest texts and table sizes that keeps the limit guarantees a page of cells that can be sent |
| `HistoryPaging.PlainPageSucceeds` | src/terminal_state_v2.rs:443-457 | up to 370 columns of single clusters of at most four bytes without links, only the style table can refuse a page |
| `HistoryPageLimits.WidePageFails` | src/terminal_state_v2.rs:454-457 | 512 rows of a thousand plain characters are refused for their size alone |
| `HistoryPageLimits.ColorfulPageFails` | src/terminal_engine.rs:988-1001 | 512 rows of nine differently coloured cells are refused because the style table is full |
| `HistoryPageLimits.CellRefused` | src/terminal_state_v2.rs:443-525 | every cell that cannot be sent, up to a megabyte long, gets its page refused although it would fit tables and wire |
| `HistoryPageLimits.EmptyTargetFails` | src/terminal_state_v2.rs:551 | a link with an identifier and no target is such a cell |
| `HistoryPageLimits.LongTargetFails` | src/terminal_state_v2.rs:552-555 | so is every link with a target of more than 16384 bytes |
| `HistoryPageLimits.LongTextFails` | src/terminal_state_v2.rs:816-819 | so is every text of more than 256 and up to 2000 bytes |
| `HistoryPageLimits.SplitTextFails` | src/terminal_state_v2.rs:812-815 | and every text that is not exactly one grapheme cluster |
| `HistoryPaging.StaleRequestResets` | src/terminal_engine.rs:291-309 | a request of another epoch gets a valid page that only asks for a reset, if the history is within its capacity |
| `HistoryPaging.PagingIsComplete` | src/terminal_state_v2.rs:443-525 | while the history grows and is trimmed, successive pages are contiguous and disjoint, read back as one stretch of it, and the flag is false exactly when no available row is missing; at most one page per row plus one |
| `HistoryPaging.WholeHistory` | src/terminal_engine.rs:267-355 | starting at the viewport, the pages of an untrimmed history are the whole history |
| `Uploads.FileService.constructor` | src/files.rs:241-256 | a restarted service knows no uploads and finds the disk as it was |
| `Uploads.FileService.BeginUpload` | src/files.rs:481-577 | the begin transition: conflict, already there, quota, resume at the temporary's length |
| `Uploads.FileService.WriteChunk` | src/files.rs:587-665 | the chunk transition: replay, gap, overlap, append, partial write |
| `Uploads.FileService.CommitUpload` | src/files.rs:667-761 | the commit transition, with other processes acting between check and publication |
| `Uploads.FileService.AbortUpload` | src/files.rs:763-784 | the abort transition |
| `Uploads.RunOk` | src/files.rs:481-784 | in every run with restarts, partial writes and interference each temporary is a prefix of its source |
| `Uploads.CommittedPrefix` | src/files.rs:587-665 | the committed part of every active upload is that part of its source |
| `Uploads.CommittedBytesStay` | src/files.rs:587-665 | until its own commit or abort a temporary only grows, over restarts too |
| `Uploads.ChunkAccepted` | src/files.rs:612-664 | a chunk is accepted if and only if it continues the prefix or repeats stored bytes; a replay changes nothing |
| `Uploads.HonestReplay` | src/files.rs:636-652 | replaying committed bytes of the source always succeeds and changes nothing |
| `Uploads.CommitPublishes` | src/files.rs:667-761 | the exact conditions under which a commit publishes and under which it succeeds; it publishes exactly the source; a failure after the link leaves the upload active, any other failure publishes nothing; the temporary name survives a success only if the destination was a link to it |
| `Uploads.SettledCommit` | src/files.rs:673-678 | committing a completed upload again succeeds without effect |
| `Uploads.OnlyCommitsPublish` | src/files.rs:718-752 | no step changes a destination except by publishing a complete source; without overwrite only where nothing existed at the check and at publication |
| `Uploads.NoClobber` | src/files.rs:718-752 | over every honest run, whatever is at a destination stays there unless another process changes it or an overwriting upload to it is committed |
| `Uploads.ResumeCompletes` | src/files.rs:481-761 | from every state, on a free destination or over anything but a directory with overwrite: restart, begin, the missing chunks and commit publish exactly the source; a destination that already matches is left alone |
| `Uploads.CompleteTempIsFixed` | src/files.rs:729-752 | a complete temporary is never written again, so a destination linked to it keeps its bytes |
| `Uploads.BeginCompleted` | src/files.rs:503-528 | a begin answers completed only if the destination has the announced size and digest |
| `Quota.ResourcePool.Reserve` | src/resources.rs:359-387 | a claim is taken if and only if every dimension fits, otherwise the first exceeded dimension is named and nothing changes |
| `Quota.ResourcePool.Release` | src/resources.rs:400-412 | dropping returns exactly the claim |
| `Quota.ReserveAll` | src/resources.rs:436-447 | over any number of pools: all or nothing, and success if and only if every pool has room |
| `Quota.ResourceGovernor.Account` | src/resources.rs:467-482 | one pool per user, created once and never shared |
| `Quota.NextOk` | src/resources.rs:359-447 | every interleaved step keeps usage equal to the claims held and within the limits |
| `Quota.RunOk` | src/resources.rs:346-482 | the same for every reachable state |
| `Quota.NeverUnderflows` | src/resources.rs:106-127 | no reachable release takes more than is in use |
| `Quota.GlobalIsSumOfUsers` | src/resources.rs:436-482 | when no call is in progress the global usage is the sum over all users |
| `Quota.RefusalLeavesNothing` | src/resources.rs:436-447 | a claim the user's pool refuses leaves both pools as they were |
| `ProtobufWire.VarintLength` | src/terminal_datagram_v3.rs:226-233 | the counting loop gives the length of the varint |
| `ProtobufWire.VarintSizes` | src/terminal_datagram_v3.rs:226-233 | how many bytes a varint takes in the ranges of the message fields |
| `ViewportFragments.CutsAscend` | src/terminal_datagram_v3.rs:206-209 | balanced ranges are nonempty, inside the body, and cover it from start to end |
| `ViewportFragments.PacketLengthExact` | src/terminal_datagram_v3.rs:141-169 | the computed size is the length of the packet's encoding |
| `ViewportFragments.FragmentsJoin` | src/terminal_datagram_v3.rs:141-153 | the first k fragments concatenate to the first part of the body |
| `ViewportFragments.Prepare` | src/terminal_datagram_v3.rs:28-126 | the search sends if and only if the delta is eligible and its smallest fitting count beats the keyframe |
| `ViewportFragments.TransferIsSound` | src/terminal_datagram_v3.rs:28-169 | what is sent: at most 128 nonempty fragments that join to the body, every encoded packet within the budget, all together below the keyframe, working memory within 65535 |
| `ReliableTransfer.PayloadRoundTrip` | src/compression.rs:71-170 | every payload within the limit decodes to itself, compressed or not, and never grows |
| `ReliableTransfer.Split` | src/server.rs:2130-2158 | the chunk loop cuts the payload at multiples of the chunk size |
| `ReliableTransfer.TransferAssembler.Push` | src/terminal_streaming.rs:183-289 | the method is the assembler's transition, state left by failures included |
| `ReliableTransfer.PushKeepsAccounts` | src/terminal_streaming.rs:253-262 | for any chunk the accounting stays right unless it exceeds the declared size; whatever is published has the announced digest |
| `ReliableTransfer.LongChunkSpoils` | src/terminal_streaming.rs:253-260 | an acceptable first chunk longer than its transfer is refused and leaves a count beyond the declared size |
| `ReliableTransfer.SpoiledForEver` | src/terminal_streaming.rs:183-289 | after such a chunk nothing is ever published, every other transfer is refused and only stored chunks may be repeated |
| `ReliableTransfer.TransferRoundTrip` | src/terminal_streaming.rs:183-289 | chunk zero first, the others in any order with repetitions: nothing before the last distinct chunk, then exactly the original bytes |
| `MessageFrames.MessageReader.ReadLimited` | src/protocol.rs:1250-1283 | a cancelled read loses nothing; any other read has the outcome of an undisturbed one, however the bytes arrive |
| `MessageFrames.LengthRoundTrip` | src/protocol.rs:1200-1213 | every frame length survives its four big-endian bytes |
| `MessageFrames.CancelSafe` | src/protocol.rs:1200-1283 | for every message list, split and cancellation pattern the answers are the messages in order, then end of stream, or an error inside a frame |
| `MessageFrames.BrokenFrame` | src/protocol.rs:1255-1275 | every proper part of a frame counts as truncated |
| `QueuedWriter.NextOk` | src/queued_writer.rs:41-143 | every atomic step keeps counter, order and wakeup invariants and never underflows |
| `QueuedWriter.BoundedAndOrdered` | src/queued_writer.rs:55-143 | in every interleaving the counter is what is reserved, queued and being written, within the budget; the sink is a prefix of the accepted bytes and all of them at the end |
| `QueuedWriter.NoMissedWakeup` | src/queued_writer.rs:41-52 | a waiter sleeps only while bytes are in flight or a notification is coming |
| `QueuedWriter.DrainDelivers` | src/queued_writer.rs:66-75 | finishing the drain loop from any reachable state delivers every accepted byte and wakes the waiter |
| `Negotiation.PrunedIsGreatest` | src/negotiation.rs:249-298 | the sequence of removals gives the greatest dependency-closed selection |
| `Negotiation.TabulateOffers` | src/negotiation.rs:455-480 | offers are accepted if and only if they are valid and distinct |
| `Negotiation.Intersect` | src/negotiation.rs:237-248 | every capability with a common version, at the highest one |
| `Negotiation.Negotiate` | src/negotiation.rs:222-303 | succeeds if and only if offers are valid and versions overlap; the result lies above every closed selection of common versions |
| `Negotiation.Selections` | src/negotiation.rs:305-314 | every negotiated capability is listed once |
| `Negotiation.CheckSelections` | src/negotiation.rs:337-354 | a selection is accepted if and only if it is valid, offered, free of repetitions and closed |
| `Negotiation.ValidateServerHello` | src/negotiation.rs:361-402 | the client accepts exactly the selections within its own offers |
| `Negotiation.ValidateWorkerSelection` | src/negotiation.rs:318-359 | the worker accepts exactly the selections within its own support |
| `Negotiation.ThreeWayAgreement` | src/negotiation.rs:222-402 | client and worker accept every negotiated selection and arrive at the server's result |
| `Negotiation.AgreementIsUnique` | src/negotiation.rs:222-303 | there is only one such result |

## Left out

- QUIC, TLS, authentication, worker processes, process locks and account lookup: foreign calls and operating-system state.
- The VT engine, PTY processes, locale and banner handling: the engine's view is a sequence of anchored rows, and a write to the PTY succeeds or fails as a whole.
- `StateSyncWindow` in `src/terminal_sync.rs`: one update in flight with a dirty flag, easy beside the streaming window; its diff is modelled.
- The validator of whole states does not check grapheme segmentation and the encoded size of a state, so results about valid states hold for more states than the code accepts; the validator of history pages checks both.
- StreamProtocol.NextOk: fragmented version 3 updates travel as ordinary deltas in the joint runs, because their reassembly at the client is not in this repository; whether an update fits a datagram is an arbitrary choice.
- ViewportRendering.RenderScreen: models the live renderer; the legacy snapshot path that also restores origin, wrap and margin modes is not modelled, and which text holds control characters is a parameter.
- HistoryPaging.PageOk: relies on the engine for anchors that ascend and follow soft wraps, row versions up to the generation, and nonempty cells of one or two columns in order; how the engine maintains these is not modelled.
- Uploads.FileService.CommitUpload: file modes and directory syncs are not modelled; a linked destination is a copy of the temporary, which `CompleteTempIsFixed` justifies, and which destinations are links to a temporary is an arbitrary choice among those with its contents; symbolic links at a destination are not modelled.
- Uploads.RunOk: destinations never have the form of a temporary upload name, and temporaries are changed by the service only.
- Uploads.FileService.WriteChunk: offsets are unbounded, so the 64-bit overflow check never fires.
- Quota.NextOk: does not model how claims are computed from terminal sizes and policies.
- QueuedWriter.NextOk: waiting and writing do not overlap, because the source's `poll_write` borrows the writer exclusively while `wait_until_drained` holds a shared borrow.
- Negotiation.Selections: lists the capabilities in an unspecified order; the source uses name order, which no check depends on.
- MessageFrames.MessageReader.ReadLimited: an I/O error of the underlying stream is treated like a cancellation.
- Compression of file chunks, the download side of file transfers, directory operations, file watching, git status and TCP forwarding: mostly I/O.
- The reconnect driver, the session catalog and stream hello checks: easy next to the rest.
