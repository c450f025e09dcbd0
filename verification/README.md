# fkfs: a verified model

fkfs keeps up to four append-only files on a raw SD card. All of them share one
log of CRC-protected entries in the 512-byte blocks from 8000 on; block 0 holds
two header slots that are written alternately. A file is truncated by bumping
its version, the start value of its entries' checksums. One block is cached and
written back late, and reading goes through tokens that can be saved, resumed
and reopened. This project models that machine in Dafny and proves what it
guarantees over whole runs, through device faults and losses of power, and
where the guarantees end.

## How it is laid out

* `Bytes`, `Crc`, `Header`, `Entry`, `Layout`: bytes, the checksum and its
  algebra, the packed header and entry, a block as a chain of records.
* `Card`: the device. A script decides the fate of every coming transfer, so a
  theorem for every script covers every pattern of faults. A failed write may
  leave any byte-wise mixture of old and new, which also models a crash.
* `Fs`: the filesystem as a value; each operation is a function from the state
  before to the state after and its result. `FileSystem`, `Reader`, `Trimming`,
  `LogBuffer` hold the objects and loops the program has, each method proved
  against `Fs` or against the unlimited scan `Scan.Remaining`.
* `Cache`, `HeaderProtocol`, `Search`: what holds for arbitrary card contents.
* `Scan`, `ScanLog`, `Journal`, `LiveVolume`, `Runs`, `Incremental`,
  `Truncation`: read-back. A journal lists the records of every block and the
  contents of every file; `Live` ties a state to its journal.
* `Unsynced`, `Durable`, `Histories`: what is on the card, what waits in the
  buffer, and what a loss of power between operations leaves. `Crash`: power lost
  inside an operation. `Older`, `Fallback`: the older header slot, and what start-up
  falls back to. `Touching`, `Gaps`: a header stored before the data it counts.
  `Uncounted`, `HalfSync`: data stored without a header that counts it. `Landing`:
  where the next entry goes in either case, and what is read then.
* `Exporter`: the offline reader of `src/read.go`. `Dma`: the channel pool and
  the descriptor chains of `utility/dma.c`.

`millis()` and `random()` are parameters (`clock`, `draws`). Words are unbounded
integers with every wrap-around written out.

Hypotheses of the model, each forced by the code:

* An entry header that is not wholly inside the 512-byte buffer ends its block,
  and an entry whose payload would run past the buffer does not pass the check.
  The program reads past the buffer there (fkfs.cpp:313, fkfs.cpp:723).
* A failed read leaves the buffer unchanged.
* Append sizes are at most 65528. `GuardWraps` shows that exactly the seven sizes
  above wrap the 16-bit `required` past the guard (fkfs.cpp:503); their copy runs
  past the buffer.
* Read-back theorems start on a zeroed data region and stop before the ring
  wraps (`Roomy`), since the iterator's range test is not cyclic. A file may be
  truncated at most 65535 times while the log stays in one block;
  `TruncationsComeRound` shows exactly what happens beyond.
* In the theorems about whole runs reads happen on a settled cache;
  `EnsureDropsDirty` and `ReadDropsWaiting` show exactly what a read through a
  dirty one loses. The iterator itself is modelled on any cache.
* Iteration demands that a token end before the place where the ring wraps.
  `ScanEndsInRange` shows that exactly then the program's scan ends.
* Histories contain touches at any time. `fkfs_touch`, and `fkfs_flush` before it
  writes its data, store a header that counts entries still in the buffer
  (fkfs.cpp:417-437). The books then call the volume `exposed` until the next
  sync. A history may end with a loss of power in that state, and
  `DurableReadBack` says what is read; it does not run on from there, and
  `AppendAfterGap` shows why.
* The crash theorems assume that a torn header slot which passes its checksum is
  the old slot or the new one (`Honest`); `TornSlotDecides` says what start-up
  does with any other. `CrashAfterHistory` starts from a volume that is not
  exposed; with sync files only that is every volume.

## Model

| member | source | states |
|---|---|---|
| `Crc.Crc16Update` | fkfs.cpp:44-63 | the table loop over `n` bytes computes the checksum fold |
| `Crc.TableLoopIsBitwise` | fkfs.cpp:39-63 | for every start and input the nibble-table loop equals the bit-at-a-time reflected CRC with polynomial 0xA001 |
| `Crc.StartInjective` | fkfs.cpp:44-63 | for fixed data the checksum is injective in its start value |
| `Crc.Concatenates` | fkfs.cpp:274-281 | checksums compose over concatenation |
| `Crc.OneByteChanges` | fkfs.cpp:44-63 | changing exactly one byte always changes the checksum |
| `Crc.ZeroesNeverPass` | fkfs.cpp:65-68 | over zero bytes no start value but zero ever gives zero |
| `Header.HeaderRoundTrip` | fkfs.h:14-32 | unpacking a packed header gives it back |
| `Bytes.LowestFirst` | fkfs.h:14-39 | two- and four-byte words lie lowest byte first |
| `Header.HeaderLayout` | fkfs.h:14-32 | at which byte of the packed header each field lies, and each field of each file |
| `Header.SealedIsValid` | fkfs.cpp:65-74 | a header whose checksum was just updated passes the slot check |
| `Header.SlotSum` | fkfs.cpp:65-74 | a slot passes if and only if its last two bytes are the bit-at-a-time CRC of the other 135 from 31337 on |
| `Header.ZeroSlotInvalid` | fkfs.cpp:208-210 | an all-zero slot never passes, so a blank card is taken for new |
| `Header.SlotWrite` | fkfs.cpp:171-175 | writing one slot leaves the other byte-identical |
| `Entry.DamageIsSeen` | fkfs.cpp:306-327 | a live entry of which one byte of payload or checksum is changed fails the check |
| `Entry.EntryLayout` | fkfs.h:34-39 | the bytes an entry puts on the card, and that its checksum is the bit-at-a-time CRC of its first five bytes and its payload from the version on |
| `Entry.CheckDecides` | fkfs.cpp:306-327 | the check on the bytes of any block: which entries end it, which are stepped over and which are live |
| `Entry.TruncationIsExact` | fkfs.cpp:274-327 | an entry written under one version passes under the file's version if and only if they are equal, and is stepped over by its own length either way |
| `Truncation.TruncationsComeRound` | fkfs.cpp:553-568 | after n truncations an old entry is live if and only if n is a multiple of 65536; other files' entries are unaffected |
| `Search.AvailableOffset` | fkfs.cpp:329-386 | the do/while search computes the recursive search along the chain |
| `Search.SearchFindsFirst` | fkfs.cpp:338-372 | the search stops at the first chain position that is not a valid entry or yields to the priority, every position before it being neither, and gives up exactly when no room is left |
| `Search.VictimCoversWrite` | fkfs.cpp:352-362 | on a priority stop the victim is valid, strictly less important, and contains the whole write |
| `Search.SkippedSurvive` | fkfs.cpp:338-372 | whatever is written where the search stopped, every entry it skipped is valid and keeps its header, payload and validity, provided its size is at most the space it occupies |
| `FileSystem.FileSystem.constructor` | fkfs.cpp:90-94 | creation zeroes the object |
| `FileSystem.FileSystem.InitializeFile` | fkfs.cpp:96-108 | configuring a file sets its settings, name, version and start |
| `FileSystem.FileSystem.HeaderWrite` | fkfs.cpp:162-182 | the new state and result of writing the sealed header into the current slot, failures and torn writes included |
| `FileSystem.FileSystem.BlockEnsure` | fkfs.cpp:184-193 | the new cache state and result of loading a block |
| `FileSystem.FileSystem.Initialize` | fkfs.cpp:195-272 | the new state and result of start-up, formatting or adopting a slot |
| `FileSystem.FileSystem.Fsync` | fkfs.cpp:388-415 | the new state and result of a sync, at each of its failure exits |
| `FileSystem.FileSystem.Touch` | fkfs.cpp:417-425 | the new state and result of stamping the time into the current slot |
| `FileSystem.FileSystem.Flush` | fkfs.cpp:427-437 | a flush is a touch followed by a sync |
| `FileSystem.FileSystem.AllocateBlock` | fkfs.cpp:439-495 | the allocation loop computes the recursive allocation |
| `Fs.GuardWraps` | fkfs.cpp:501-506 | for every 16-bit size the guard admits exactly 1 to 505 and, wrapped, 65529 to 65535; the latter are exactly the admitted sizes that do not fit a block |
| `Fs.GuardWrapsAt65529` | fkfs.cpp:503-504 | at 65529 bytes `required` is zero and the guard lets it pass |
| `FileSystem.FileSystem.Append` | fkfs.cpp:497-551 | the new state and result of an append of a size that does not wrap the guard, including the guard and the sync |
| `FileSystem.FileSystem.Truncate` | fkfs.cpp:553-568 | the new state of a truncation |
| `FileSystem.FileSystem.TruncateAll` | fkfs.cpp:595-600 | the loop truncates all four files |
| `Cache.FsyncKeeps` | fkfs.cpp:388-415 | a sync, successful or not, leaves every data block as the filesystem sees it and keeps the cache coherent; a sync that wrote leaves no block cached |
| `Cache.EnsureKeeps` | fkfs.cpp:184-193 | loading a block into a settled cache changes nothing that is seen |
| `Cache.EnsureDropsDirty` | fkfs.cpp:184-193 | loading another block through a dirty cache keeps the view if and only if the buffer had nothing the card lacks |
| `Cache.AdvancesRound` | fkfs.cpp:463-466 | k advances lead from block b of the ring to block 8000 + (b - 8000 + k) mod (n - 8002) |
| `Cache.AllocateIsSafe` | fkfs.cpp:439-495 | for arbitrary contents and faults: an allocated place fits its block, the block is at most five steps further round the ring of blocks 8000 to the last but two, no live entry is there unless it has the room and its file is less important, nothing seen changes, and a working device refuses only after exactly five |
| `Cache.AppendIsLocal` | fkfs.cpp:528-543 | an append changes the view only inside its own bytes of one block of the ring; a failed one changes nothing or fails after doing the same |
| `Runs.CoherentRuns` | fkfs.cpp:184-193 | in every reachable state, for any contents and faults, a dirty buffer belongs to the header's block and a clean one equals its block on the card |
| `HeaderProtocol.HeaderWriteEffect` | fkfs.cpp:162-182 | a successful header write stores the sealed header in its slot, valid, and keeps the other slot |
| `HeaderProtocol.OtherSlotSafe` | fkfs.cpp:162-182 | however a header write ends, even torn, the other slot keeps its bytes |
| `HeaderProtocol.FsyncProtocol` | fkfs.cpp:402-407 | a sync stores the header in the older slot under the next generation, and start-up then trusts it if and only if the counter did not overflow |
| `HeaderProtocol.TouchProtocol` | fkfs.cpp:417-425 | a touch rewrites the current slot in place and keeps the protocol |
| `HeaderProtocol.RetryTargetsLiveSlot` | fkfs.cpp:402-407 | after a failed header write the next sync aims at the slot that still holds the last good header |
| `HeaderProtocol.RetryMayLoseBoth` | fkfs.cpp:388-415 | if the failed write left its slot torn, that slot is the only one start-up can trust; if the retry tears it too, start-up formats the card and every file is empty |
| `HeaderProtocol.TornTouch` | fkfs.cpp:417-425 | a torn touch whose slot fails its checksum throws start-up back to the other slot, or to formatting if that fails too |
| `HeaderProtocol.ConfiguredIsPristine` | fkfs.cpp:90-108 | creating a filesystem and configuring its files gives the state start-up expects; a configured file has the given setting, name and version, and the others are unchanged |
| `HeaderProtocol.FormatProtocol` | fkfs.cpp:210-249 | formatting leaves generations 0 and 1 in slots 0 and 1, the offset and time the header had, and no data block touched |
| `HeaderProtocol.WipeRenews` | fkfs.cpp:210-249 | after a wipe every file is empty, with the version drawn for it and the name it was configured with, and an entry from before is live if and only if it was written under the very version drawn |
| `HeaderProtocol.StartsFromSlot` | fkfs.cpp:250-276 | start-up from a valid slot, called in any state: every field comes from that slot but each file keeps its configured name, and the loaded copy of the slot is made to agree while the other is left alone |
| `HeaderProtocol.InitializeRestores` | fkfs.cpp:250-269 | start-up selects the current slot and restores the header last written, apart from the configured names |
| `Runs.ProtocolRuns` | fkfs.cpp:402-425 | over all runs on a working device, touches included, generation mod 2 names the current slot, which is valid with the strictly greatest generation and is the one start-up trusts |
| `Scan.TurnProgress` | fkfs.cpp:715-785 | every turn of the iteration moves to a later offset or to the next block, and the wrap branch is never taken; it returns an entry exactly where a live one of the file lies, and turns the page exactly where no entry does |
| `Scan.ScanEndsInRange` | fkfs.cpp:715-785 | on every card content an unlimited scan from a block before the last two ends if its token ends before the wrap, and never ends otherwise |
| `Scan.ZeroRingCycles` | fkfs.cpp:752-785 | round a ring of zeros a token that ends in the last two blocks comes back to where it was without a hit |
| `Scan.HitsAreOrdered` | fkfs.cpp:694-790 | on every card content the positions returned strictly increase, lie in the token's range and carry live entries of its file |
| `ScanLog.ScanFinds` | fkfs.cpp:694-790 | on a card that carries a log, the scan between any two records returns exactly the matching ones in between, in order, and rests at its end |
| `Layout.PutExtends` | fkfs.cpp:528-532 | writing an entry at the end of a block's chain extends the chain by that record |
| `LiveVolume.LookFindsEnd` | fkfs.cpp:479-487 | before the ring wraps the search always stops at once, at the end of the chain |
| `LiveVolume.LiveAppend` | fkfs.cpp:497-551 | an append, whatever the device does, keeps the volume equal to its journal |
| `LiveVolume.AppendAccepts` | fkfs.cpp:503-514 | on a working device with room ahead an append of a size that does not wrap the guard succeeds if and only if it has 1 to 505 bytes |
| `Journal.CutTracks` | fkfs.cpp:553-568 | a truncation empties its own file and no other |
| `Journal.ReadsContents` | fkfs.cpp:602-614 | from any card that carries what a header describes, the scan of a file returns exactly its contents, and its size is their total mod 2^32 |
| `Runs.StartIsLive` | fkfs.cpp:195-249 | starting on a blank card, wiping or not, gives an empty live volume with its header stored |
| `Runs.RunIsLive` | fkfs.cpp:497-568 | along every run with any faults the volume stays live and its journal holds exactly what was taken |
| `Runs.ReadBack` | fkfs.cpp:497-790 | from a blank card, after any appends, truncations, touches, flushes and reads over four files with any faults, a scan returns exactly the payloads taken since the last truncation, in order, and the size is their total mod 2^32 |
| `Reader.Iterate` | fkfs.cpp:694-790 | on any cache a call returns the next pending entry or none and leaves exactly the rest pending, for every budget, clock and fault; on a working device it succeeds exactly when no page before the entry exceeds the budget of blocks or the limit of time, and otherwise stops at the end or at the first page that does; it keeps unsynced bytes if it stays in their block |
| `Reader.InTime` | fkfs.cpp:773-777 | while the clock stays within the limit, the budget of blocks alone decides |
| `Reader.StopsAtLimit` | fkfs.cpp:773-777 | if the k-th page is the first past a limit and the range does not end there, a call that finds nothing stops exactly k blocks further on |
| `Reader.IterateMove` | fkfs.cpp:666-679 | stepping by hand advances by the entry's occupied length, or refuses at the end of a block |
| `Reader.Drain` | fkfs.cpp:634-790 | repeating bounded calls until done, saving and resuming the token, stepping by hand or not, ends and yields exactly one unlimited scan |
| `Incremental.IncrementalRead` | fkfs.cpp:616-632 | reading to the end, appending more and reopening the token returns exactly the new payloads, or everything if the recorded size fell below the token's |
| `Incremental.IncrementalAfterCut` | fkfs.cpp:616-632 | if the file was truncated in between, at most 65535 times in all, the reopened token returns exactly its present contents, whether it restarts or not |
| `Incremental.ReopenRestarts` | fkfs.cpp:617-621 | a file smaller than the token's size is read again from its start |
| `Incremental.ResumeRestarts` | fkfs.cpp:634-650 | resuming restarts a file smaller than the token's size, and otherwise goes on from the very token saved |
| `Trimming.CalculateFileSize` | fkfs.cpp:570-585 | the size becomes that of the entries reached by calls that give up after ten blocks, up to the first failed read |
| `Trimming.ReachIsExact` | fkfs.cpp:577-583 | the entries reached are all, and their bytes all bytes, if and only if no gap reaches ten blocks |
| `Trimming.TruncateAt` | fkfs.cpp:587-593 | for any token, cache and device the start moves to the token's last block and the size is recomputed; on a live volume whose unsynced bytes, if any, lie in that block the file then reads as its payloads from there on and the others as before, and on a working device the size counts all of them if and only if no gap reaches ten blocks |
| `Trimming.TrimKeepsSuffix` | fkfs.cpp:587-593 | those payloads are exactly the ones in blocks from the new start on, a suffix of the contents |
| `Trimming.TrimReads` | fkfs.cpp:587-593 | a scan of the trimmed file returns exactly that suffix, however many blocks it spans and whatever the size field says |
| `Trimming.TrimmedVolume` | fkfs.cpp:570-593 | the trimmed volume is live again if, and below 2^32 bytes only if, no gap reaches ten blocks |
| `Trimming.ShortTrimIsLive` | fkfs.cpp:570-593 | a kept part of fewer than ten blocks has no such gap |
| `Unsynced.ScanLanded` | fkfs.cpp:694-790 | a scan under a header that counts more than the card holds returns exactly what is on the card |
| `Unsynced.ChainsDecode` | fkfs.cpp:528-529 | of two chains of entries at the start of one block the shorter begins the longer |
| `Durable.KeptFsync` | fkfs.cpp:388-415 | a successful sync of a dirty buffer makes the live journal the durable one |
| `Durable.RebootRestores` | fkfs.cpp:250-269 | start-up after losing power brings back exactly the durable journal |
| `Histories.HistoryIsBooked` | fkfs.cpp:388-568 | over all histories of operations, touches at any time and losses of power on a working device, the contents seen, those on the card and those the next loss of power leaves follow the books |
| `Histories.DurableReadBack` | fkfs.cpp:195-790 | after any such history every file reads back as booked, now and after the next loss of power, also when a touch has stored a header that counts unsynced entries; no history runs on from there |
| `Touching.TouchThenLoss` | fkfs.cpp:417-425 | after a touch and a loss of power each file lacks exactly its unsynced payloads while the header still counts them, so all files read as before if and only if no unsynced entry of a present version was in the buffer |
| `Touching.FlushHalfway` | fkfs.cpp:427-437 | the same between the two halves of a flush |
| `Touching.TouchLosesRecord` | fkfs.cpp:417-425 | on a new volume one unsynced record, a touch and a loss of power: the size counts the record, the scan returns nothing |
| `Touching.ReadDropsWaiting` | fkfs.cpp:184-193 | a read through a dirty cache leaves each file without exactly its unsynced payloads |
| `Gaps.LossLeavesGap` | fkfs.cpp:250-269 | starting up after such a touch leaves a header that counts more records than its block holds |
| `Gaps.AppendAfterGap` | fkfs.cpp:439-534 | the next append then succeeds and is counted, and is read back if and only if its entry does not fit that block; otherwise its file reads as before |
| `Older.HistoryIsBacked` | fkfs.cpp:402-407 | over all such histories the slot that is not current stays valid and describes an earlier state, which the card still carries; what it counts follows the books |
| `Fallback.TouchCutShort` | fkfs.cpp:417-437 | a touch, or the touch inside a flush, cut short after any history: if its slot still holds the old header all files read as saved, if the new one as what is on the card, and if it fails its checksum as what the other slot counts |
| `Fallback.AcknowledgedSurvives` | fkfs.cpp:537-543 | an append that returned true to a sync file, not truncated since, is saved; a torn touch spares it once another sync has happened, and until then leaves what was counted just before the append's own sync |
| `Fallback.TornTouchLosesAppend` | fkfs.cpp:417-425 | on a new volume a sync file's append returns true, then one byte of a touch reaches the card: start-up trusts the slot from before the append, and the payload is gone |
| `Crash.TornSlotDecides` | fkfs.cpp:250-262 | exactly when start-up trusts a given slot while the other may hold anything |
| `Crash.FsyncCrash` | fkfs.cpp:388-415 | a sync cut short anywhere, data or header torn, leaves a card from which start-up finds the header before or after it, and every file reads back what that header describes; after one that succeeded it is the header after |
| `Uncounted.SearchStops` | fkfs.cpp:329-386 | on a block full of records the search stops at the first record that is stale or yields, or at the end, and gives up exactly when the records leave no room |
| `Uncounted.NextAppend` | fkfs.cpp:439-551 | on a card that holds more than its header counts the next append succeeds; its file reads as saved, then its own uncounted records that the search stepped over, then the payload, while the size counts the payload only; the other files read as saved |
| `Uncounted.AppendAfterHalfSync` | fkfs.cpp:439-551 | with one uncounted record the file reads as saved plus the payload if and only if the record is of another file or version, or opened a block of its own and the entry still fits the block before |
| `HalfSync.CrashThenAppend` | fkfs.cpp:388-415 | the same after a crash between the data write and the header write of any sync |
| `HalfSync.LostRecordComesBack` | fkfs.cpp:390-407 | on a new volume one record whose header was not written: after start-up the next append brings it back in front of the new payload |
| `Crash.AppendCrash` | fkfs.cpp:497-551 | an append cut short at any transfer leaves all four files as last saved, or as before the append if entries were unsynced, or with the new payload, each under the header that goes with it; a sync file's append that returned true is there |
| `Crash.CrashAfterHistory` | fkfs.cpp:388-551 | the same after any history of operations and losses of power that does not end exposed by a touch |
| `Crash.SyncAppendIsAtomic` | fkfs.cpp:537-543 | with sync files only, an append cut short leaves the saved state or the state with the new payload, nothing in between, and one that returned true survives a loss of power right after it |
| `LogBuffer.LogBuffer.Flush` | fkfs_log.cpp:11-20 | a flush appends the held bytes and empties the buffer only if the append succeeds |
| `LogBuffer.FlushConserves` | fkfs_log.cpp:11-20 | the file's own bytes followed by the held ones are conserved by a flush if and only if it succeeded or the file took nothing; for a file that is not a sync file they always are |
| `LogBuffer.RetryWritesTwice` | fkfs_log.cpp:11-20 | a sync file whose data write is refused keeps the bytes in the file and in the buffer, and the retry writes them a second time |
| `LogBuffer.LogBuffer.AppendBinary` | fkfs_log.cpp:22-51 | what was flushed followed by what is held equals what was held followed by the bytes consumed; success consumes all and the filesystem has exactly the flushed payloads appended; as long as fewer than 505 bytes come together nothing is flushed, and every flushed payload has 505 bytes apart from one forced out in front of an unsplittable record; such a record is held whole or was flushed whole in one entry, and is refused, with nothing changed, exactly if it has 505 bytes or more and does not fit; on a live volume the file's own bytes are conserved if and only if the last flush did not fail after the file took its bytes, which only a sync file can do |
| `LogBuffer.LogBuffer.Append` | fkfs_log.cpp:53-56 | the same buffering and conservation for text |
| `Exporter.Export` | src/read.go:205-243 | the cursor loop writes, per file and in order, the payloads of the recursive export, and stops early exactly when that panics |
| `Exporter.GoTakesRecord` | src/read.go:110-163 | at an entry of the current version `ReadBlock` yields its file and payload and the cursor after it |
| `Exporter.ReadBlockDecides` | src/read.go:110-163 | `ReadBlock` on the bytes of any image: when it panics, skips to the next block, or yields an entry |
| `Exporter.GoLeavesStale` | src/read.go:137-146 | at an entry of another version the rest of the block is left |
| `Exporter.ExportsLog` | src/read.go:205-243 | on a synced image the exporter runs to its end and writes, of each block before the header's, the payloads up to the first stale record, with one more for file 0 at each boundary where a straddling header passes |
| `Exporter.HeadersAgree` | src/read.go:72-84 | the exporter uses the header start-up trusts, unless the other slot, whose checksum it does not look at, has a generation that wins |
| `Exporter.GoStraddles` | src/read.go:110-163 | behind a chain that ends at 510 or 511 an entry header is read across the block boundary; if it passes it counts as one of file 0, and the cursor goes to the next block |
| `Exporter.ReadersAgree` | src/read.go:205-243 | on a synced image, truncated or not, the exporter, with the header it reads there, writes for a file exactly the iterator's entries in blocks before the header's if and only if none of them lies behind a stale record in its block; file 0 also needs that no header read across a block boundary passes. Assumed: no record of the file's present version lies before its start, which takes 65536 truncations |
| `Exporter.UntruncatedAgrees` | src/read.go:205-243 | on an image that was never truncated nothing lies behind a stale record |
| `Exporter.StaleHides` | src/read.go:137-146 | a stale record in front of a current one: the exporter writes neither, the iterator's check passes the current one |
| `Dma.Resource.AddDescriptor` | utility/dma.c:631-654 | adding a descriptor ends, keeps the earlier ones in order and puts it last; the chain is terminated and acyclic again if and only if it was terminated and not yet part of the chain; a busy resource is untouched |
| `Dma.Pool.FindFirstFree` | utility/dma.c:92-124 | the lowest free channel is taken if there is one, and free channels plus set bits stay five |
| `Dma.Pool.Allocate` | utility/dma.c:303-369 | allocation takes the lowest free channel, keeps slot and bit in step, and keeps every resource in its own channel's slot if and only if the resource was not in the pool yet |
| `Dma.Pool.Free` | utility/dma.c:387-415 | freeing clears slot and bit together and returns the channel, or reports busy or not initialised and changes nothing |
| `Dma.SetCounts` | utility/dma.c:107-108 | setting a bit of the mask raises the count exactly if it was clear |
| `Dma.ClearCounts` | utility/dma.c:132-136 | clearing a bit of the mask lowers the count exactly if it was set |
| `Dma.BitsAreBinary` | utility/dma.c:107-136 | setting a clear bit adds its power of two to the mask, clearing a set one takes it away, and otherwise the mask stays |

## Left out

- SPI and SD command sequencing (`sd_raw.cpp`, `sd_raw_dma.cpp`): a transfer is an atomic block read or write that may fail or tear.
- DMA registers, interrupts, callbacks, suspend and resume: their meaning is decided by hardware.
- Logging, statistics, `fkfs_log_printf`, `fkfs_get_file`, `fkfs_number_of_files`: no property of interest.
- Name strings: a name is its twelve bytes, and copying one replaces them; `strncpy` is not modelled.
- Memory beyond the 512-byte buffer: reads past it are replaced by the two rules under the hypotheses.
- Read-back after the ring has wrapped: only the allocator, search, cache and header results cover wrapped states.
- Histories.DurableReadBack: does not run on from a loss of power right after a touch of unsynced entries; `AppendAfterGap` says what becomes of the next append.
- Crash.CrashAfterHistory: an append cut short right after a touch of unsynced entries is not covered, since torn data then lies where the stored header expects entries.
- Running on after a crash that tore the data itself: `CrashThenAppend` starts from data that was written whole.
- FileSystem.FileSystem.Append: does not model sizes above 65528, where the 16-bit guard wraps and the copy runs past the buffer.
- LiveVolume.AppendAccepts: the same sizes are not modelled.
- Reader.Iterate: does not model a token that ends behind the place where the ring wraps, on which the program does not stop.
- Reader.IterateMove: without its own check of the block it needs an entry header inside the buffer; the program reads past it there.
- Trimming.TruncateAt: stated before the ring wraps, that is, for a file that ends at or before the header's block.
- Trimming.CalculateFileSize: stated for the same states.
- LogBuffer.LogBuffer.AppendBinary: the growth of the file's own contents is stated for a volume with room for the flushes, before the ring wraps.
- File I/O, flags and output names of `src/read.go`: an image is a byte sequence and each output a list of payloads.
