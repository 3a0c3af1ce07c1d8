# Takanawa, modelled and verified

Takanawa downloads a file in chunks, several at a time, into a `.part` file that
survives crashes, and renames it to its target once every chunk is there and the
content has passed a hash check. This project models the two crates that do the
work, `takanawa-core` and `takanawa-http`, and proves what they are for.

- **The part file** (`Chunk`, `Bitmap`, `Utf8`, `Metadata`, `SlotCodec`,
  `SlotReading`): the chunk plan, the completion bitmap as a set, and the
  checksummed metadata slot with its round trip. The encoder fills a buffer in place
  and is proved equal to the written-down layout; which byte sequences the decoder
  accepts, and what it takes them to say, is stated byte by byte.
- **The commit protocol** (`Disk`, `Protocol`, `ProtocolSafety`, `ProtocolRuns`):
  a disk is durable bytes and pending operations; a crash keeps any byte-wise part
  of what is pending. Theorems are about every run through any number of crashes,
  restarts and commits. A restart may come with or without a crash, at any moment,
  also while the file is being created.
- **The object that runs the protocol** (`Device`, `PartFile`): the `PartFile`
  class with its methods, on a drive whose every call may fail. Each method is
  proved against its effect on the file and the record, and the sequence of disk
  states it leaves behind, on success and on every error path, is a run of the
  protocol. The drive counts the calls that failed although the files allowed them;
  a method reports an I/O error exactly if there was one, and stops there.
- **Opening** (`Opening`): when the record that a program reads on opening is also
  what the disk would give back after a power cut.
- **Hashing** (`Digest`, `Hashers`, `Verifier`): the standards FIPS 180-4 and
  RFC 1321 as functions, the block-buffered in-place SHA-1 and MD5 hashers proved
  against them, and the verifier that `verify_hash` feeds.
- **The download run** (`Lifecycle`, `Accounting`, `DownloadRun`,
  `DownloadSafety`, `DownloadRuns`, `Streaming`, `WriterTask`): the main loop, the chunk tasks,
  the bounded FIFO queue and the writer as a step relation; the writer is also a
  method over the `PartFile` class.
- **Which downloads complete** (`Completion`): the contents a download can end with,
  exactly.
- **How a run stops and ends** (`Endings`): what a pause or a cancellation still lets
  happen, where a reported error comes from, and which phase a run is left in.
- **What is published** (`Reporting`): the records of a run, and what a join reports.
- **From the stream to the disk** (`Delivery`): opening gives a session of that
  machine, finalizing is a step it can take, and what a crash recovers was streamed.
- **Small timed and concurrent objects** (`Limiter`, `Throttle`, `Speed`,
  `Bandwidth`, `Retry`).

The one assumption about the checksum is local: when a crash happens, the slot
that was being written may be torn, and its image decodes to its old record, to
its new record, or not at all (`Protocol.TearDetected`, for that image only).

Six properties turned out to need a condition, and the model keeps the code as
it is:

- A callback that is removed by one thread while another thread installs one can
  lose the report of a later change (`Throttle.ChangeCanBeMissed`).
  `Throttle.ExactlyMissed` says which runs lose one, both ways: a removal's reset
  found a callback installed, a report owed to it and no thread bringing it, and
  neither a change nor a replacement came after. A caller who never lets that
  reset come late misses nothing (`Throttle.NoChangeIsMissed`).
- The first progress that is reported need not be durable. A program that starts
  again without a crash reads the page cache, where a slot may be that was never
  synced; a power cut would take it back (`Opening.OpeningCanRunAhead`). What is
  read is durable if and only if no pending operation touches the slot it was read
  from (`Opening.OpeningRecordIsDurable`). Every later report is durable when it is
  made, so all of them are if and only if the first one is
  (`DownloadRuns.ProgressIsDurableExactly`).
- The cutoff of the speed window falls back to the present if the platform cannot
  represent the instant one second earlier. That can only happen within the first
  second after the earliest instant that it can represent, and so only where
  instants are unsigned. The window is right for a reading if and only if the
  reading is that instant or at least one second later (`Speed.CutoffExact`), and
  after any sequence of events if and only if no sample of the last second was
  passed by such a cutoff (`Speed.WindowIsLastSecond`).
- A free slot of the I/O limiter can stay unused while somebody sleeps: two releases
  before two new waiters have parked leave one stored wakeup, because storing a
  second one changes nothing (`Limiter.SlotCanIdle`). It takes just that: a step
  loses a try that was needed exactly if a wakeup merges with a stored one while
  somebody sleeps and there are no more tries about than free slots
  (`Limiter.StarvesExactly`); without such a step every slot is taken whenever
  somebody is left waiting (`Limiter.NoSlotIdles`). Nobody is stuck for good: once no
  permit is held, a grant is near (`Limiter.NoPermitMeansProgress`).
- Reported progress can go back: tasks need not be joined in the order of their
  commits, and each join publishes the record that answered its own commit
  (`Reporting.ReportsCanGoBack`, for every download with two chunks to do and room for
  two tasks). Of two joins the later one publishes fewer chunks if and only if its
  record is the older one (`Reporting.GoesBackExactly`).
- One call of `RetryConfig::normalized` orders the two delays if and only if a
  maximum is given or the initial delay is at most three seconds
  (`Retry.OneCallOrders`); two calls always do. The program makes three.

The slot round trip has one exception, which the model keeps: an empty ETag or
Last-Modified string comes back as absent (`SlotCodec.Stored`).

## Model

| member | source | states |
|---|---|---|
| ChunkLayout.DivCeilBound | crates/takanawa-core/src/chunk.rs:130-136 | the chunk count is the least number of chunks that reach the end of the file |
| ChunkLayout.ChunkInPlan | crates/takanawa-core/src/chunk.rs:70-91 | every index in the plan yields a non-empty chunk inside the file; neither overflow check nor subtraction can fail |
| ChunkLayout.ChunksContiguous | crates/takanawa-core/src/chunk.rs:70-91 | chunks start at 0, each starts where the previous one stops, and the last stops at the end |
| ChunkLayout.ChunksDisjoint | crates/takanawa-core/src/chunk.rs:70-91 | different chunks do not overlap |
| ChunkLayout.ChunksCover | crates/takanawa-core/src/chunk.rs:70-91 | every byte of the file lies in a chunk of the plan |
| ChunkLayout.ChunksUnique | crates/takanawa-core/src/chunk.rs:70-91 | and in only one |
| ChunkLayout.ChunkPlan.New | crates/takanawa-core/src/chunk.rs:36-45 | fails, as invalid, exactly if the chunk size exceeds a signed 64-bit offset; otherwise a valid plan for that length, with the default size in place of zero |
| Bitmap.MarkedAddsOne | crates/takanawa-core/src/bitmap.rs:67-71 | marking adds exactly one index to the set and leaves unused bits clear |
| Bitmap.CanonicalUnique | crates/takanawa-core/src/bitmap.rs:125-146 | equal sets have equal bytes |
| Bitmap.FromBytesAcceptsCanonical | crates/takanawa-core/src/bitmap.rs:30-42 | exactly the canonical encodings are accepted |
| Bitmap.AllCompleteIsFull | crates/takanawa-core/src/bitmap.rs:85-101 | the count is the cardinality, so "all complete" means the set is full |
| Bitmap.IncompleteIsComplement | crates/takanawa-core/src/bitmap.rs:105-109 | the incomplete list is the strictly increasing complement |
| Bitmap.ChunkBitmap.MarkComplete | crates/takanawa-core/src/bitmap.rs:67-71 | the bit is set in place; an index past the end is an error and changes nothing |
| Bitmap.ChunkBitmap.IsComplete | crates/takanawa-core/src/bitmap.rs:78-81 | membership, or an error past the end |
| SlotCodec.SlotRoundTrip | crates/takanawa-core/src/metadata.rs:211-339 | decoding an encoded record gives it back, empty header strings becoming absent, for every consistent record and any checksum function |
| SlotCodec.ChecksumIgnoresItself | crates/takanawa-core/src/metadata.rs:544-549 | the checksum does not depend on its own field |
| SlotCodec.SlotSizeHolds | crates/takanawa-core/src/metadata.rs:501-516 | header, bitmap and both strings fit the aligned slot |
| SlotCodec.HeaderDecodes | crates/takanawa-core/src/metadata.rs:379-422 | every header field is read back from where it was written |
| SlotCodec.BodyDecodes | crates/takanawa-core/src/metadata.rs:312-336 | bitmap and strings are read back behind the header |
| SlotCodec.EncodeSlot | crates/takanawa-core/src/metadata.rs:211-290 | the buffer filled in place is the checksummed layout, with the same errors |
| SlotCodec.EncodesExactly | crates/takanawa-core/src/metadata.rs:211-225 | a record is encoded exactly if its strings and bitmap fit and the slot has the size that belongs to the record |
| SlotCodec.NewRecordExactly | crates/takanawa-core/src/metadata.rs:80-106 | a new record is made exactly if both headers fit and the chunk size is a file offset; generation zero, no chunk complete, everything else as given |
| SlotReading.SlotSizeExactly | crates/takanawa-core/src/metadata.rs:501-516 | the slot is the header, one bit a chunk and both strings, rounded up to whole pages; it exists exactly if the chunk size is a signed offset |
| SlotReading.AcceptsExactly | crates/takanawa-core/src/metadata.rs:299-341 | for every byte sequence: it is decoded exactly if magic, version, header length, checksum over all but itself, sizes, digest kind and length, bitmap and strings are good; the record is what the bytes say; anything else is an error, and only a bitmap that reaches past the slot panics |
| SlotReading.HeaderExactly | crates/takanawa-core/src/metadata.rs:379-447 | the header is accepted exactly if it is good, for both versions |
| SlotReading.MeansOne | crates/takanawa-core/src/metadata.rs:299-341 | the bytes leave no choice of record |
| Utf8.ValidExactly | crates/takanawa-core/src/metadata.rs:534-542 | a stored string is accepted exactly if it spells a text: shortest forms of code points that are not surrogates (section 3 of RFC 3629) |
| Utf8.CharExactly | crates/takanawa-core/src/metadata.rs:534-542 | one character, and the only one, is read at the front |
| Basics.LittleEndianRoundTrip | crates/takanawa-core/src/metadata.rs:552-592 | fixed-width little-endian fields read back as written |
| Sha1Stream.OrForms | crates/takanawa-core/src/hash.rs:325-335 | the OR forms equal Ch and Maj of section 4.1.1 of FIPS 180-4 |
| Sha1Stream.Sha1Schedule | crates/takanawa-core/src/hash.rs:311-322 | the in-place schedule is W of section 6.1.2 of FIPS 180-4 |
| Sha1Stream.Sha1Compress | crates/takanawa-core/src/hash.rs:311-345 | the in-place compression equals section 6.1.2 of FIPS 180-4 for every state and block |
| BlockHash.WordsWrittenBack | crates/takanawa-core/src/hash.rs:311-316 | a word that was read from four bytes is written as these four bytes, in either byte order |
| BlockHash.RotateMovesBytes | crates/takanawa-core/src/hash.rs:320-322 | rotating left by eight bits moves every byte up and the highest to the bottom |
| BlockHash.RotationsAdd | crates/takanawa-core/src/hash.rs:320-322 | rotations add up |
| BlockHash.SumsCountOn | crates/takanawa-core/src/hash.rs:333-339 | adding is counting on and wraps |
| Md5Stream.SelectMeetsStandard | crates/takanawa-core/src/hash.rs:499-512 | the word selected by arithmetic is the one listed in section 3.4 of RFC 1321 |
| Md5Stream.RolesRotate | crates/takanawa-core/src/hash.rs:513-518 | rotating four variables is the register permutation of section 3.4 of RFC 1321 |
| Md5Stream.Md5Compress | crates/takanawa-core/src/hash.rs:493-522 | the rotating-variable form equals the register-permuted rounds for every state and block |
| Sha1Standard.PadSplits | crates/takanawa-core/src/hash.rs:281-301 | the padding the code adds is one 0x80 byte, zeros to 56 mod 64, and the 64-bit length, big-endian |
| Md5Standard.PadSplits | crates/takanawa-core/src/hash.rs:394-410 | the same with a little-endian length |
| Sha1Hashing.Sha1Hasher.Update | crates/takanawa-core/src/hash.rs:252-279 | any slice extends the absorbed message, however it falls on block borders |
| Sha1Hashing.Sha1Hasher.Finalize | crates/takanawa-core/src/hash.rs:281-301 | the digest is SHA-1 of the concatenation of all slices |
| Md5Hashing.Md5Hasher.Update | crates/takanawa-core/src/hash.rs:365-392 | any slice extends the absorbed message |
| Md5Hashing.Md5Hasher.Finalize | crates/takanawa-core/src/hash.rs:394-410 | the digest is MD5 of the concatenation of all slices |
| Verification.FinishVerifier | crates/takanawa-core/src/hash.rs:204-218 | true exactly if the expected digest is that of everything fed in, kind by kind; for CRC-32, if the four expected bytes are the checksum, most significant first |
| Verification.OneDigestPasses | crates/takanawa-core/src/hash.rs:204-218 | no kind but none accepts everything: a content passes for one expected digest only |
| Verification.BigEndianIsNumber | crates/takanawa-core/src/hash.rs:214-216 | the big-endian bytes stand for the number |
| Disk.CrashKeepsQuiet | docs/part-format.md:39-40 | a crash leaves a range alone that no pending operation touches |
| Disk.ViewIsCrashImage | docs/part-format.md:39-40 | losing nothing is one of the outcomes of a crash |
| Disk.MoreOpsMoreImages | docs/part-format.md:31-37 | one more pending operation takes no outcome away |
| Disk.AnyBytesMayArrive | docs/part-format.md:39-40 | of a write that was not synced any bytes may arrive while the others do not |
| Disk.AllMayBeLost | docs/part-format.md:31-37 | everything that is pending may be lost |
| Protocol.PowerMayGo | docs/part-format.md:39-40 | the power may go at any moment: the theorems about crashes are never empty |
| Protocol.EntriesMayBeUndone | crates/takanawa-core/src/part_file.rs:82-92 | a new file may be gone, and a renamed one back under its old name, as long as the directory was not synced |
| Protocol.ExpectedLenExactly | crates/takanawa-core/src/part_file.rs:50-57 | the length of a part file exists exactly if it has 64 bits; it is that of the content and two slots |
| ProtocolSafety.SlotBytesDecode | crates/takanawa-core/src/part_file.rs:243-254 | what a commit writes decodes to its record |
| ProtocolSafety.Recovers | crates/takanawa-core/src/part_file.rs:307-330 | every crash image of a guarded file recovers to the durable record or the next one, with all its chunks |
| ProtocolSafety.RecoveredIsGuarded | crates/takanawa-core/src/part_file.rs:307-330 | what is recovered can be built upon again, so crashes may repeat |
| ProtocolSafety.WriteContentKeepsInv | crates/takanawa-core/src/part_file.rs:154-179 | streaming bytes into an incomplete chunk keeps every committed chunk safe |
| ProtocolSafety.SyncDataKeepsInv | crates/takanawa-core/src/part_file.rs:189-197 | the content sync makes what memory knows the durable record |
| ProtocolSafety.WriteSlotKeepsInv | crates/takanawa-core/src/part_file.rs:243-251 | writing the next generation, whole or in part, leaves the slot that recovery uses alone |
| ProtocolSafety.SyncSlotKeepsInv | crates/takanawa-core/src/part_file.rs:252-253 | after the final sync the new record is the durable one |
| ProtocolSafety.TruncateKeepsInv | crates/takanawa-core/src/part_file.rs:211-234 | truncation is pending only on a file with every chunk committed and accepted |
| ProtocolSafety.FullView | crates/takanawa-core/src/part_file.rs:211-234 | with every chunk committed a read sees exactly the committed content |
| ProtocolRuns.StepKeepsInv | crates/takanawa-core/src/part_file.rs:35-254 | every step, reboots at any moment included, keeps the invariant |
| ProtocolRuns.CrashNeverMarksMissingData | docs/part-format.md:39-40 | at any point of any run, for any crash image: each chunk that the recovered record marks was committed earlier in the run, and the file holds what was read there at that commit; no acknowledged chunk is missing from the record |
| ProtocolRuns.RebootNeverMarksMissingData | crates/takanawa-core/src/part_file.rs:50-79 | the same when the program starts again without a crash |
| ProtocolRuns.MarkedWasCommitted | crates/takanawa-core/src/part_file.rs:189-200 | a mark in the newest record comes from a commit of that chunk, and the committed content is what was read then |
| ProtocolRuns.UnbornReboot | crates/takanawa-core/src/part_file.rs:82-104 | a reboot while the file is being created, with a crash or without, keeps the invariant, and no target exists |
| ProtocolRuns.AcknowledgedSurvives | crates/takanawa-core/src/part_file.rs:189-200 | acknowledged chunks survive every crash and restart |
| ProtocolRuns.RunsOnlyGain | crates/takanawa-core/src/part_file.rs:243-254 | along a run, acknowledged chunks, their content and the durable generation are never lost |
| ProtocolRuns.CommitIsDurable | crates/takanawa-core/src/part_file.rs:243-254 | after a commit of generation g returned, any later crash recovers g or newer with every acknowledged chunk and its bytes |
| ProtocolRuns.CrashRecoversLastOrNext | crates/takanawa-core/src/part_file.rs:243-254 | between a commit of generation g and the next one, a crash recovers generation g or g + 1 |
| ProtocolRuns.CommitSparesBestSlot | crates/takanawa-core/src/part_file.rs:243-254 | every readable slot has the parity of its generation, and a commit never writes the slot recovery would choose |
| ProtocolRuns.ClosedForGood | crates/takanawa-core/src/part_file.rs:50-67 | a file cut to its content is rejected as a size mismatch, a promoted one because its target exists; neither is resumed |
| ProtocolRuns.TargetIsWhole | crates/takanawa-core/src/part_file.rs:211-240 | whenever the target exists it has exactly content_len bytes, every chunk of it was committed in the run and holds what was read there then, and they passed the check |
| PartFiles.CrashAtAnyCall | crates/takanawa-core/src/part_file.rs:35-254 | the crash theorem at every call the object makes on the drive, failed calls included: marked chunks were committed and hold what was committed |
| PartFiles.CommittedRecord | crates/takanawa-core/src/part_file.rs:189-200 | after a commit, recovery would choose the record in memory |
| PartFiles.CommitCompletes | crates/takanawa-core/src/part_file.rs:189-200 | from any idle state a commit that meets no error goes through and acknowledges its chunk |
| PartFiles.SomeRunCommits | crates/takanawa-core/src/part_file.rs:82-104 | every non-empty download has a run that creates the file and commits, so the theorems speak of something |
| PartFiles.ReadBestMetadata | crates/takanawa-core/src/part_file.rs:307-330 | the record of an acceptable slot, with the largest generation, the later one on a tie, for any file; an I/O error exactly if a call failed |
| PartFiles.BestIsNewest | crates/takanawa-core/src/part_file.rs:307-330 | what is read is the record of a slot whose bytes are good and whose checksum holds, and no other such slot is newer; nothing is read if neither is good |
| PartFiles.ResumedExactly | crates/takanawa-core/src/metadata.rs:154-196 | a record is resumed exactly if its URL hash, length, chunk size, digest kind and digest are the same and each validator that both sides have is equal; any difference is RemoteChanged |
| PartFiles.OpenOrCreate | crates/takanawa-core/src/part_file.rs:35-105 | outcome for any files found; an existing file is resumed only if it is of the same download, and any difference is refused; an I/O error exactly if a call failed; and if a run of the protocol left the files, after a crash or not, the object continues that run |
| PartFiles.OpenExisting | crates/takanawa-core/src/part_file.rs:50-79 | an existing file is taken up if its best record is of the same download, refused as changed if not, and an I/O error is reported exactly if a call failed |
| PartFiles.DefaultSizeOpens | crates/takanawa-core/src/part_file.rs:42-48 | a zero chunk size opens what the default size opens |
| PartFiles.Create | crates/takanawa-core/src/part_file.rs:82-104 | creating a file is a sequence of protocol steps, wherever it fails; an I/O error exactly if a call failed |
| PartFiles.PartFile.WriteChunkBytes | crates/takanawa-core/src/part_file.rs:154-179 | exactly the given bytes of an incomplete chunk change; exact error and no-op cases, I/O errors exactly if a call failed; a prefix on failure |
| PartFiles.PartFile.CommitChunk | crates/takanawa-core/src/part_file.rs:189-200 | the set grows by one, the content is untouched, and the new record is what recovery finds; it fails exactly if the index is past the plan, a call failed or the generation is used up |
| PartFiles.PartFile.CommitMetadata | crates/takanawa-core/src/part_file.rs:243-254 | the next generation is durable on success; it fails exactly if a call failed or the generation is used up |
| PartFiles.PartFile.WriteChunk | crates/takanawa-core/src/part_file.rs:127-143 | a whole chunk is replaced and committed, or left alone if complete; every error has its exact cause |
| PartFiles.PartFile.IncompleteChunks | crates/takanawa-core/src/part_file.rs:115-117 | exactly the missing chunks, in increasing order |
| PartFiles.PartFile.VerifyHash | crates/takanawa-core/src/part_file.rs:256-272 | true exactly if the content of the file passes the configured check, kind by kind; an I/O error exactly if a call failed |
| PartFiles.CheckContent | crates/takanawa-core/src/part_file.rs:256-272 | reading in bounded buffers feeds the hasher exactly the first content_len bytes and never past them |
| PartFiles.PartFile.Finalize | crates/takanawa-core/src/part_file.rs:211-240 | incomplete and mismatching files are refused unchanged, I/O errors are reported exactly if a call failed; on success the target is the accepted content and the part file is gone |
| Opening.OpeningRecordIsDurable | crates/takanawa-core/src/part_file.rs:50-79 | after any run and any reboot: the record that opening reads is what the durable bytes recover to, if and only if nothing pending touches the slot it was read from |
| Opening.CrashedOpeningIsDurable | crates/takanawa-core/src/part_file.rs:50-79 | after a crash it always is |
| Opening.IdleRecordIsDurable | crates/takanawa-core/src/part_file.rs:243-254 | between calls, the record in memory is the durable one if and only if its slot is synced |
| Opening.OpeningCanRunAhead | crates/takanawa-core/src/part_file.rs:243-254 | for every non-empty download: a slot that was written and not synced makes opening report a chunk that a power cut would take back |
| Accounting.BytesAreCounted | crates/takanawa-core/src/metadata.rs:116-139 | adding up chunk sizes counts the bytes of the file that lie in complete chunks |
| Accounting.AllBytesWhenComplete | crates/takanawa-core/src/metadata.rs:116-139 | at most content_len, and equal exactly if all chunks are complete |
| Accounting.CompletedBytes | crates/takanawa-core/src/metadata.rs:116-139 | the loop computes that number without overflow |
| DownloadSafety.EventualAppend | crates/takanawa-http/src/downloader.rs:599-636 | queueing a command changes the eventual content by that command only |
| DownloadSafety.SendKeepsFlow | crates/takanawa-http/src/downloader.rs:868-901 | a fragment sent extends what the chunk will hold |
| DownloadSafety.SubmitKeepsFlow | crates/takanawa-http/src/downloader.rs:927-942 | a commit is queued only behind all bytes of its chunk |
| DownloadSafety.WriterCommitKeepsFlow | crates/takanawa-http/src/downloader.rs:617-631 | a commit keeps queue, tasks and file in agreement, or stops the writer |
| DownloadSafety.StepKeepsInv | crates/takanawa-http/src/downloader.rs:419-763 | every step of every task keeps the invariant |
| Streaming.StreamBody | crates/takanawa-http/src/downloader.rs:860-909 | what was sent is what arrived, end to end, never more than the chunk; the outcome is given by the first fragment that does not pass: cancelled, paused, its own error, too long, or the writer gone; if all pass, completion exactly if the body has the chunk's length |
| Streaming.StopsOnce | crates/takanawa-http/src/downloader.rs:868-901 | there is one such fragment at most, and none if the whole body passes |
| Streaming.StreamFillsChunk | crates/takanawa-http/src/downloader.rs:860-909 | a body streamed to its end is what the chunk holds once the queue is worked off; other chunks have not moved |
| DownloadRuns.CommitsWhatWasReceived | crates/takanawa-http/src/downloader.rs:606-634 | for every interleaving: when a commit is executed, the range of its chunk is the body of that chunk's last fully streamed attempt |
| DownloadRuns.BodyIsLastReceived | crates/takanawa-http/src/downloader.rs:719-757 | the recorded body is the one of the last receipt in the run |
| DownloadRuns.WritesStayInTheirChunk | crates/takanawa-http/src/downloader.rs:609-616 | a write changes no chunk but its own, and never one that was complete |
| DownloadRuns.ChunksAreConserved | crates/takanawa-http/src/downloader.rs:462-521 | the chunks to do are the disjoint union of pending, in flight and joined; limits on tasks and queue hold; joined chunks are committed |
| DownloadRuns.JoinsMakeProgress | crates/takanawa-http/src/downloader.rs:491-548 | each join retires one chunk, whatever its task brought back, and no other step from the loop changes the number outstanding |
| DownloadRuns.FlagsOnlyRise | crates/takanawa-http/src/downloader.rs:310-330 | pause and cancel flags are never lowered during a run |
| DownloadRuns.AttemptsAreBounded | crates/takanawa-http/src/downloader.rs:719-757 | in a whole run no chunk is fetched more often than the policy allows |
| DownloadRuns.FetchesAreCounted | crates/takanawa-http/src/downloader.rs:719-757 | at every point of a run, the attempt number of a chunk's task is the number of fetches begun for it, one more while the next is about to begin; a chunk whose task is gone is joined or given up |
| Endings.RetriedExactly | crates/takanawa-http/src/downloader.rs:747-755 | a failed attempt is made again exactly if the error is one of the network or a retryable status and the chunk has not been fetched as often as the policy allows; otherwise the task fails with that error |
| Endings.StopMeansNoPromotion | crates/takanawa-http/src/downloader.rs:660-676 | a run that was paused or cancelled before the last check of the flag never promotes the file |
| Endings.StopsSoon | crates/takanawa-http/src/downloader.rs:468-489 | once a flag is up, the loop joins one more task at most and takes up one more chunk at most, none if it was cancelled |
| Endings.EndedWellMeansPaused | crates/takanawa-http/src/downloader.rs:475-548 | a run that ends well without a promotion was paused |
| Endings.WhyTaskFailed | crates/takanawa-http/src/downloader.rs:719-757 | a task's error is that of its own attempt, a cancellation it saw, a writer that was gone or its commit that failed |
| Endings.WhyItFailed | crates/takanawa-http/src/downloader.rs:638-658 | a run's error is that of probing, opening, finalizing, the writer, a joined task, or a cancellation; the writer's error is reported unless it only says that a commit failed |
| Endings.WhyWriterFailed | crates/takanawa-http/src/downloader.rs:606-632 | the writer fails with an I/O error because a write failed, or says that a commit failed because one did |
| Endings.OnceDecided | crates/takanawa-http/src/downloader.rs:468-562 | once it is decided why a run is closed it ends accordingly: paused, cancelled or with the error, unless the writer failed; of two errors the one that says more is reported |
| Endings.FlagsAreRaised | crates/takanawa-http/src/downloader.rs:310-330 | a flag is up exactly if somebody has raised it |
| Endings.StopsCalling | crates/takanawa-http/src/downloader.rs:425-455 | once a flag is up, the run makes one more of the calls that probe, open and finalize at most |
| Endings.PhaseFollows | crates/takanawa-http/src/state.rs:250-341 | the phase shows what the run is doing and how it ended; only a request can show instead, and never over a failure |
| Endings.RequestsStay | crates/takanawa-http/src/state.rs:283-305 | a request that finds the run busy shows until the run ends |
| Endings.RequestShows | crates/takanawa-http/src/state.rs:283-305 | a request that finds the run busy shows at once |
| Endings.RequestsBetweenRuns | crates/takanawa-http/src/state.rs:283-305 | between runs a pause changes nothing and a cancellation settles a download that never started |
| Endings.LateCancelSettles | crates/takanawa-http/src/state.rs:307-318 | a cancellation of a run that has stopped without completing settles it |
| Endings.StartsFromSettled | crates/takanawa-http/src/state.rs:250-260 | a run starts exactly from the phases in which nothing is going on |
| DownloadRuns.FinalizesOnlyWhenComplete | crates/takanawa-http/src/downloader.rs:553-562 | finalize is reached only with nothing pending or in flight and every chunk committed, holding its body |
| DownloadRuns.CompletedMeansPromoted | crates/takanawa-http/src/downloader.rs:660-681 | Completed is entered only after finalize succeeded on an accepted file (`Delivery.FinalizePart` says when it does), and stays under late events |
| Completions.CompletesExactly | crates/takanawa-http/src/downloader.rs:419-681 | some run completes with a given content if and only if it passes the check, keeps every chunk committed before, and the generation counter has room for one commit of each missing chunk |
| Completions.LoopCompletes | crates/takanawa-http/src/downloader.rs:462-563 | from the top of the loop an undisturbed run fetches, writes, commits and joins every chunk, with any parallelism |
| Completions.RunsAreCounted | crates/takanawa-core/src/part_file.rs:243-254 | the generation counts the chunks committed since the file was opened |
| Completions.FoundIsKept | crates/takanawa-http/src/downloader.rs:606-634 | no run changes a chunk that was complete when the file was opened |
| DownloadRuns.ProgressIsDurable | crates/takanawa-http/src/state.rs:498-514 | all progress fields come together from one record: the opening one, or one that the durable bytes recovered to by then |
| DownloadRuns.ProgressIsDurableExactly | crates/takanawa-http/src/downloader.rs:440-461 | every snapshot of every run shows a durable record, if and only if the opening record was durable |
| Reporting.JoinPublishes | crates/takanawa-http/src/downloader.rs:522-541 | a join publishes the record that answered its commit, and that record marks its chunk |
| Reporting.RunsKeepRecords | crates/takanawa-core/src/part_file.rs:243-254 | each record of a run is newer than those before it and marks all that they mark, and more |
| Reporting.GoesBackExactly | crates/takanawa-http/src/downloader.rs:522-541 | of two joins the later one publishes fewer chunks if and only if its record is the older one |
| Reporting.ReportsCanGoBack | crates/takanawa-http/src/downloader.rs:506-541 | a reachable state whose next join publishes less than is published, for every download with two chunks to do and room for two tasks |
| WriterTask.RunWriter | crates/takanawa-http/src/downloader.rs:599-636 | the writer loop over the part file performs the commands in order; each reply is the opened record or one that the durable bytes recovered to; each slot write belongs to a commit and found what the commands before it had made, on every error too; it fails only if a call failed or the generation ran out |
| WriterTask.RunCommand | crates/takanawa-http/src/downloader.rs:607-632 | one command is performed, and a commit that changed the record is answered only once it is durable; it fails only if a call failed or the generation is used up |
| WriterTask.RunCommit | crates/takanawa-http/src/downloader.rs:617-631 | a commit marks its chunk in the record, durably, or fails |
| WriterTask.WriterStepsPerform | crates/takanawa-http/src/downloader.rs:607-632 | the machine's writer steps give the part that performing the command gives |
| Delivery.OpenSession | crates/takanawa-http/src/downloader.rs:440-461 | what opening returns is a session of the machine: its content, its record and what of it is durable |
| Delivery.OpensDurablyExactly | crates/takanawa-http/src/downloader.rs:440-461 | its first progress is durable if and only if nothing pending touches the slot that was opened |
| Delivery.FinalizePart | crates/takanawa-http/src/downloader.rs:660-681 | whatever the finalize call returns is a step that the machine can take, with the exact cause of each error; on success the target has the machine's content |
| Delivery.RecoveredChunksWereStreamed | crates/takanawa-http/src/downloader.rs:599-636 | for any download, any reboot of the machine it runs on and any chunk that the recovered record marks: it was committed before the download and holds what it held, or it holds a body that this download streamed to its end |
| Delivery.TakenPerforms | crates/takanawa-http/src/downloader.rs:606-632 | the file of the machine is what the commands taken off the queue made of the opened file |
| Limiter.StepKeepsInv | crates/takanawa-http/src/limiter.rs:54-120 | every step keeps count, queue and wakeup invariant |
| Limiter.CountIsExact | crates/takanawa-http/src/limiter.rs:113-120 | in_flight is the number of live permits, and the saturating decrement never saturates |
| Limiter.GrantsRespectLimit | crates/takanawa-http/src/limiter.rs:54-70 | a permit is granted only below the limit of that moment |
| Limiter.AsksAreGranted | crates/takanawa-http/src/limiter.rs:54-70 | whoever asks below the limit gets a permit at once, and sleeps otherwise |
| Limiter.LimitIsLastSet | crates/takanawa-http/src/limiter.rs:79-84 | the limit is the one set last, and at least one |
| Limiter.ChangesReachEveryone | crates/takanawa-http/src/limiter.rs:79-84 | after a change of the limit everyone who slept is woken, or the wakeup is still to come |
| Limiter.NoSlotIdles | crates/takanawa-http/src/limiter.rs:54-70 | with somebody waiting at rest every slot is taken, unless a wakeup was lost on the way |
| Limiter.StarvesExactly | crates/takanawa-http/src/limiter.rs:113-120 | the steps that lose a wakeup which was needed, exactly |
| Limiter.SlotCanIdle | crates/takanawa-http/src/limiter.rs:54-70 | a reachable state at rest with a free slot and a sleeper |
| Limiter.NoPermitMeansProgress | crates/takanawa-http/src/limiter.rs:54-82 | nobody is stranded: while no permit is held and someone waits, a grant is at most three internal steps away |
| Limiter.Slots.TryEnter | crates/takanawa-http/src/limiter.rs:56-63 | the critical section is the step of the machine |
| Throttle.CallbackThrottle.Decide | crates/takanawa-http/src/state.rs:665-688 | an emission is due exactly if none is scheduled and there was none before or the interval has passed; otherwise one is scheduled for the end of the interval; the machine's gate decides the same |
| Throttle.CallbackThrottle.TakeDue | crates/takanawa-http/src/state.rs:722-736 | a timer counts only if the gate was not reset meanwhile |
| Throttle.EmissionsAreSpaced | crates/takanawa-http/src/state.rs:665-688 | between two resets, emissions are at least one interval apart for every interleaving and stale clock reading |
| Throttle.SixtyASecond | crates/takanawa-http/src/state.rs:88-89 | the sixtieth emission after one comes a second later, less the rounding of the interval |
| Throttle.OneLiveTimer | crates/takanawa-http/src/state.rs:203-208 | trailing_scheduled holds exactly while one live timer carries the current generation; only that timer emits |
| Throttle.TimersAreSoon | crates/takanawa-http/src/state.rs:681-687 | a timer is never more than a sixtieth of a second away |
| Throttle.FreshTimerIsExact | crates/takanawa-http/src/state.rs:681-687 | set by a fresh clock reading, it ends with the interval |
| Throttle.StepKeepsAttended | crates/takanawa-http/src/state.rs:609-626 | an owed snapshot stays on its way |
| Throttle.ExactlyMissed | crates/takanawa-http/src/state.rs:378-397 | at rest, the installed callback has seen the latest version, if and only if no earlier removal's reset found a callback installed, a report owed to it and no thread bringing it, with no change or replacement since |
| Throttle.LostForGood | crates/takanawa-http/src/state.rs:378-397 | a report lost that way stays lost until the next change or replacement |
| Throttle.MissedMeansLost | crates/takanawa-http/src/state.rs:609-626 | nothing else loses a report |
| Throttle.NoChangeIsMissed | crates/takanawa-http/src/state.rs:609-626 | for a caller: at rest, the installed callback has seen the latest version if no removal's reset found a callback installed |
| Throttle.ChangeCanBeMissed | crates/takanawa-http/src/state.rs:378-397 | a reachable state at rest in which a change was never reported |
| Speed.SpeedProgress.RefreshWindow | crates/takanawa-http/src/state.rs:158-185 | discards in place and adds up, saturating; the elapsed time is exact, one second at most |
| Speed.SpeedProgress.RecordBodyBytes | crates/takanawa-http/src/state.rs:148-156 | appends a sample and refreshes |
| Speed.WindowIsSinceMark | crates/takanawa-http/src/state.rs:147-193 | after any sequence of events in order, the window holds exactly the samples since the last reset that no cutoff has passed, and reports their saturating sum |
| Speed.WindowIsLastSecond | crates/takanawa-http/src/state.rs:147-193 | after any sequence of events in order, the window holds the samples of the last second since the last reset, if and only if none of them was passed by an earlier cutoff |
| Speed.WindowAfterFirstSecond | crates/takanawa-http/src/state.rs:147-193 | once one second of representable time has passed, that is the last second's history |
| Speed.CutoffExact | crates/takanawa-http/src/state.rs:158-161 | the clock readings for which the cutoff is right, exactly |
| Bandwidth.ReservationsAreDisjoint | crates/takanawa-http/src/downloader.rs:970-993 | reservations do not overlap and follow the order of the lock |
| Bandwidth.LongEnoughUnlessClamped | crates/takanawa-http/src/downloader.rs:982-986 | a reservation is long enough exactly if it was not clamped |
| Bandwidth.NoLongerThanNeeded | crates/takanawa-http/src/downloader.rs:982-986 | a reservation is no longer than its bytes need, to the nanosecond |
| Bandwidth.StartsAtOnce | crates/takanawa-http/src/downloader.rs:970-993 | a call starts when it asks or as soon as the reservation before it ends |
| Bandwidth.RateBound | crates/takanawa-http/src/downloader.rs:970-993 | bytes before the k-th call stay within rate times elapsed time |
| Bandwidth.WindowBound | crates/takanawa-http/src/downloader.rs:970-993 | any window exceeds the rate by at most one fragment |
| Bandwidth.BandwidthLimiter.Throttle | crates/takanawa-http/src/downloader.rs:970-993 | each call reserves the next start of the sequence; zero rate or zero bytes reserve nothing |
| Retry.OneCallOrders | crates/takanawa-http/src/downloader.rs:95-112 | when one normalization orders the delays, exactly |
| Retry.OneCallMayNotOrder | crates/takanawa-http/src/downloader.rs:95-112 | a configuration for which one call is not enough |
| Retry.TwoCallsSettle | crates/takanawa-http/src/downloader.rs:95-116 | two calls reach a fixpoint with ordered delays |
| Retry.NormalizedKeepsGiven | crates/takanawa-http/src/downloader.rs:95-112 | missing delays get the defaults, a maximum that is too small is raised, nothing else changes |
| Retry.AttemptsAreRetriesPlusOne | crates/takanawa-http/src/downloader.rs:114-116 | one attempt and one more for each retry, within 32 bits |
| Retry.RunWithRetry | crates/takanawa-http/src/downloader.rs:683-707 | attempts and delays in closed form; the loop ends at the first final attempt, and the error behind it is unreachable |
| Retry.DelaysGrow | crates/takanawa-http/src/downloader.rs:697-700 | delays never shrink and stay between the initial and the maximum delay |

## Left out

- HTTP requests, headers, TLS and status mapping: a reply is an arbitrary sequence of fragments or an error; accepted replies match the requested range.
- File locking, paths, `sync_parent_dir` and other processes: one actor uses the part file and the target.
- SHA-256, SHA-512 and CRC-32, which other crates compute: arbitrary functions of the bytes.
- Bytes per second and other floating point, error texts, `catch_unwind` and panicking callbacks.
- Bindings, command line and build tooling: thin wrappers.
- Records that another program wrote with a valid checksum: `PartFile.Valid` requires a file that runs of this program left; `OpenOrCreate` also says what happens on any other file.
- Continuing on the same object after a failed commit: the writer stops, and the object then promises only that the disk stays a protocol run.
- A failed sync that silently drops dirty pages: here the bytes stay pending.
- Losing the directory entry of a new part file after its first `sync_all` succeeded: that sync is assumed to make it durable.
- Resuming with other remote headers: along one run of the protocol every reopening uses the same job; incompatible records are refused by `EnsureCompatible` in `Metadata`.
- Slots of version 1: they are decoded but never written, so no round trip is stated for them.
- Liveness of whole downloads, and that every run settles: pausing late can leave a transitional phase.
- Dropping the handle while the file is being opened or finalized.
- `clear_error`, which changes a snapshot field without notifying; the machine counts only changes that notify.
- More than 2^64 - 1 resets of one callback throttle, after which generations repeat.
- `probe_with_retry` and `fetch_chunk_with_retry` share one retry loop in the model; waiting itself is not modelled.
- Bandwidth.RateBound: holds while no single reservation is clamped to 64 bits of nanoseconds, because a clamped one is too short.
