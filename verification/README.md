# Verification of the traceability platform

A Dafny model of the parts of the platform whose correctness rests on several
pieces of code together, with proofs. `dafny verify dfyconfig.toml` checks it.

**Packing, receipt and shipping** (`Packing*.dfy`). Products, boxes, items and
shipments of the production server as tables, every request as one atomic
step. `PackingHandlers` says what each request checks and changes,
`PackingDatabase` does it statement by statement with the database triggers in
between and rollback on an abort, and is proved to do the same.
`PackingInvariant` is what holds after every run from an empty database;
`PackingTheorems` says what follows. `PackingAnswers` states, from the rows
alone, when each request succeeds; `PackingEffects` what a successful one does
to every column of every row; and `PackingGoods` that goods only ever go to
distributors of their own brand. Generating several codes is not atomic:
the product is looked at once and every further code is an insert of its own,
with any other requests in between. Three places where the server is weaker
than its triggers or its words suggest are stated exactly, and
`PackingExamples` reaches each from an empty database: set-product passes its
own guards and is then aborted by a trigger when it changes the batch of a box
that is not empty; a generation under way is aborted when its product has been
deleted; and an invalid box comes back in stock when its last item is taken
out. No other request ever meets a trigger.

**Checksums and archives** (`Crc32.dfy`, `Zip*.dfy`). The table-driven CRC-32
against the bit-at-a-time register, and the archive writer against an
independent reader. Words are the unsigned numbers behind the signed ones of
the table array.

**The save queue** (`SaveQueue*.dfy`). One asynchronous write at a time,
conflict block, online switch, timer with backoff, restart from a snapshot.
Every interleaving of calls, timers and outcomes is covered. `SaveQueueLaws`
fixes the waits by doubling, counts the failures behind them over whole runs,
and says which event changes which variable. A clear is final
exactly when no write is pending; otherwise the write can fail and bring the
cleared edits back. After a version conflict nothing is written until it is
resolved, unless the page is closed inside the callbacks of the failed write:
the snapshot of the conflict is saved only after them, and a page opened from
the older one writes again.

**GS1 keys and code strings** (`Gs1*.dfy`). The service's validator and builder
against their database twins, what the check digit detects, and code strings
that can be taken apart again.

**Code generation** (`CodeJob*.dfy`). Jobs of one tenant from approval to the
last chunk, with workers interleaved under row locks and codes that exist
already being skipped. `CodeJobsContents` says what every code tells its
reader, `CodeJobsCommands` what every command does to jobs, locks and rows. The SSCC intervals the workers rely on are proved
disjoint from the approval code. In every run the rows of a completed job are
exactly the codes of all its indices, and those of a job that is not blocked
exactly the codes of the indices it has counted. A job is blocked when the code
of an index it has not counted exists, and a job completes if and only if it is
not: since skipped codes do not count, the next chunk starts again at indices
that have rows, and rows and count no longer agree. SEQUENTIAL numbering starts
at 1 for every job, so of several such jobs with one GTIN and batch only the one
that writes the first code completes. A job that cannot complete is taken again
and again, oldest first, so a younger job gets a worker if and only if the
blocked jobs before it are fewer than the workers.

The hash behind RANDOM serials is a parameter. Where codes have to differ, it
is assumed to tell apart the named jobs and the indices they can have (1 to 1
million); such hashes exist for any jobs with ids below 10 to the 13th.

**Outbox** (`Outbox*.dfy`). Leases, retries, crashes, dead letters and replays.
A row is processed if and only if a delivery was recorded, and nobody claims it
afterwards, in every run whatever its workers do (`OutboxDelivery`).
Replays go through requests: one is filed for a row read as dead, one per row
can be pending, and approving it resets the row without another look. The
guarantees hold while live workers stay within their leases and no approval
meets a row that one of them holds, and both limits are exact: `OutboxExamples`
has a run from an empty outbox for each. No approval does so when every request
is inserted while its row is still dead, as it is when requests are filed one
at a time; with an approval between read and insert it can happen. The caps in
the backoff expression are never reached.

**Idempotent commands** (`Idempotency*.dfy`). Lock, lookup, work, insert and
commit of any number of interleaved transactions. The primary key ignores
`expires_at` and nothing deletes old records, so a key works once for good:
after its 24 hours a retry runs the work again and always fails on the insert.

**Export** (`CsvExport.dfy`). Cells, keyset pages, and a reader that finds every
row of the batch with every cell under the name of its column.

**Rate limiter** (`RateLimiter.dfy`). The fixed window with a table shared by
all sources. The exact bound over any window's length is one less than twice
the limit under a clock that does not go back; under one that does it can be
exceeded.

`Wrappers.dfy` and `Numbers.dfy` hold what the modules share.

## Model

| member | source | states |
|---|---|---|
| PackingShippingPreserved.StepKeeps | server-snapshots/20260917-production/server.js:2073-3236 | Every request, refused or done, keeps the table invariant: counts, box and item agreement, receipt factory, shipment rows, unique rows, keys. |
| PackingShippingPreserved.ReachableInv | server-snapshots/20260917-production/server.js:2073-3236 | The invariant holds after every sequence of requests from an empty database. |
| PackingTheorems.StockAgrees | server-snapshots/20260917-production/server.js:2073-3236 | After every run each box counts exactly its items and stays within its size, and every bound item agrees with its box on product, brand, batch and factory and has a boxing time. |
| PackingGoods.ShipsOwnBrandOnly | server-snapshots/20260917-production/server.js:2982-2986 | In every reachable state a box that ships has the brand of its distributor, and so has every item in it. |
| PackingGoods.ShipsOwnItemOnly | server-snapshots/20260917-production/server.js:3023-3030 | The same for an item that ships alone, and for the box it sits in. |
| PackingGoods.GoodsStayInBrand | server-snapshots/20260917-production/server.js:2976-3045 | While distributors keep their brands, no run leaves an item, a box or a shipment row with a distributor of another brand. |
| PackingGoods.ShippedByOwnBrand | server-snapshots/20260917-production/server.js:2976-3045 | An item gets a distributor only by a request that ships it, alone or in its box, to that distributor and names the item's own brand as the distributor's. |
| PackingGoods.BoxShippedByOwnBrand | server-snapshots/20260917-production/server.js:2976-3003 | A box gets one only by the request that ships it, likewise. |
| PackingGoods.ConfirmsFullBoxes | server-snapshots/20260917-production/server.js:2627-2655 | In every reachable state a box that is confirmed holds exactly as many items as its size, or its product's size when it has none of its own. |
| PackingAnswers.DoneIffAccepted | server-snapshots/20260917-production/server.js:1733-3236 | In every state that meets the invariant, each of the 24 requests succeeds if and only if a condition on the rows holds that does not mention the handlers: who may receive, what may enter a box, how full a confirmed or shipped box is, whose goods go out, what may be undone or deleted. |
| PackingAnswers.FactoryChoice | server-snapshots/20260917-production/server.js:1347-1406 | The two ways of choosing the receiving factory choose f if and only if the account stands for it or names it and the box allows it. |
| PackingEffects.ItemEffects | server-snapshots/20260917-production/server.js:1733-3236 | Every column of every item after a successful request: which requests put it into which box with which product and batch, change its status, times, factory or distributor, to what, and that no other request does. |
| PackingEffects.BoxEffects | server-snapshots/20260917-production/server.js:1733-3236 | The same for every column of every box but its count, which the invariant fixes. |
| PackingEffects.TableEffects | server-snapshots/20260917-production/server.js:1733-3236 | Which rows there are afterwards, the shipment rows added and removed, the packing records left, the products, and what a new code says. |
| PackingEffects.NotDoneLeavesAlone | server-snapshots/20260917-production/server.js:1733-3236 | A refused or aborted request changes nothing; a repeated scan is only logged. |
| PackingTheorems.ShippedBoxIsComplete | server-snapshots/20260917-production/server.js:2627-3010 | After every run a shipped box is confirmed, has a product, is not empty, is exactly full when it has a size, and all its items carry its distributor. |
| PackingTheorems.ShipmentAgreement | server-snapshots/20260917-production/server.js:2972-3147 | An item has a distributor if and only if exactly one live shipment row covers it, its own or its box's whole-box row, and that row names the same distributor. |
| PackingTheorems.CoveringRowAgrees | server-snapshots/20260917-production/server.js:2972-3147 | A covering row names the item's distributor, and it is the item's own row exactly when the item is not in a shipped box. |
| PackingTheorems.ShipThenCancelBox | server-snapshots/20260917-production/server.js:2972-3128 | Shipping a box and cancelling the shipment restores every table exactly; only the next shipment id has moved. |
| PackingTheorems.ShipThenCancelItem | server-snapshots/20260917-production/server.js:3012-3139 | The same for a single item. |
| PackingTheorems.ItemContinuesOrWasUnused | server-snapshots/20260917-production/server.js:2073-3236 | One request keeps an item's brand, and keeps an invalid item invalid with its box, product and batch; the only way to lose an item is to delete one that was never packed. |
| PackingTheorems.BoxKeepsBrand | server-snapshots/20260917-production/server.js:2073-3236 | One request keeps a box's brand or deletes a box that was never packed. |
| PackingTheorems.BrandIsForever | server-snapshots/20260917-production/server.js:2073-3236 | Over whole runs the brand of a box or an item never changes. |
| PackingTheorems.InvalidItemIsForever | server-snapshots/20260917-production/server.js:2349-2379 | Over whole runs an invalid item stays invalid with box, product, brand and batch frozen. |
| PackingTheorems.GoneForever | server-snapshots/20260917-production/server.js:2255-2347 | A deleted box or item never comes back: ids are not handed out twice. |
| PackingTheorems.PackedCodesStay | server-snapshots/20260917-production/server.js:2255-2347 | A code that has a packing record is never deleted. |
| PackingTheorems.ItemMovesUnsealed | server-snapshots/20260917-production/server.js:2136-3236 | An item that changes boxes leaves and enters only boxes that are not confirmed after the request. |
| PackingTheorems.ConfirmedBoxIsSealed | server-snapshots/20260917-production/server.js:2627-2655 | A request that changes the contents of a confirmed box clears the confirmation in the same step. |
| PackingTheorems.SetProductTrigger | server-snapshots/20260917-production/receipt-integrity.cjs:43-60 | Behind the guards of set-product the box trigger passes exactly when the box is empty or the batch is not changed. |
| PackingTheorems.SetProductConflicts | server-snapshots/20260917-production/server.js:2527-2560 | Set-product ends in a trigger conflict if and only if its guards pass, the box has items and a different batch is given. |
| PackingTheorems.ConflictsExactly | server-snapshots/20260917-production/server.js:1733-3236 | In every reachable state a request ends in a trigger conflict if and only if it is a set-product that changes the batch of a box with items, or a further code of a generation whose product is gone. |
| PackingTheorems.StartedGenerationAborts | server-snapshots/20260917-production/server.js:1733-1828 | After its product check and any other requests, the next code of a generation is aborted if and only if the product has been deleted. |
| PackingExamples.FilledRun | server-snapshots/20260917-production/server.js:2073-2133 | Generating a product, a box and an item and binding them reaches a state with a filled box. |
| PackingExamples.BatchChangeAborts | server-snapshots/20260917-production/server.js:2527-2560 | A run from an empty database after which set-product is aborted. |
| PackingExamples.GenerationCanAbort | server-snapshots/20260917-production/server.js:1733-1780 | A run from an empty database after which the second box of a generation is aborted. |
| PackingTheorems.InvalidBoxRevives | server-snapshots/20260917-production/server.js:3153-3170 | An invalid box stops being invalid if and only if the request passes the guards of an unbind or of cancelling an item's stock and its item is the only one in the box. |
| PackingExamples.InvalidBoxCanRevive | server-snapshots/20260917-production/server.js:3163-3170 | A run from an empty database after which that happens. |
| PackingReceiptPreserved.BindPassesTriggers | server-snapshots/20260917-production/receipt-integrity.cjs:43-60 | Behind the guards of bind no row it writes is refused by the item trigger. |
| PackingReceiptPreserved.BindKeeps | server-snapshots/20260917-production/server.js:2073-2133 | Bind keeps the invariant. |
| PackingShippingPreserved.ShipBoxKeeps | server-snapshots/20260917-production/server.js:2972-3010 | Shipping a box keeps the invariant. |
| PackingShippingPreserved.CancelShipBoxKeeps | server-snapshots/20260917-production/server.js:3104-3128 | Cancelling a box shipment keeps the invariant. |
| PackingReceiptPreserved.CancelStockBoxKeeps | server-snapshots/20260917-production/server.js:3173-3205 | Cancelling the stock of a box keeps the invariant. |
| PackingDatabase.Database.BindRows | server-snapshots/20260917-production/server.js:2112-2128 | The loop over the codes of a bind writes exactly the rows of the bind and fails exactly when some row fails its trigger. |
| PackingDatabase.Database.Bind | server-snapshots/20260917-production/server.js:2073-2133 | The statements of bind give the specified state, with no trigger abort. |
| PackingDatabase.Database.SetProduct | server-snapshots/20260917-production/server.js:2527-2560 | The statement of set-product gives the specified state or the specified conflict. |
| PackingDatabase.Database.Scan | server-snapshots/20260917-production/server.js:2562-2625 | The statements of a scan give the specified state. |
| PackingDatabase.Database.Confirm | server-snapshots/20260917-production/server.js:2627-2655 | The statements of confirm give the specified state. |
| PackingDatabase.Database.ScanNobox | server-snapshots/20260917-production/server.js:2657-2717 | The statements of a receipt without a box give the specified state. |
| PackingDatabase.Database.ClearItem | server-snapshots/20260917-production/server.js:3153-3162 | Clearing the receipt of an item never trips a trigger in a reachable state. |
| PackingDatabase.Database.TakeOut | server-snapshots/20260917-production/server.js:2136-2161 | The statements that take one item out, recount its box and clear an emptied one give the specified state. |
| PackingDatabase.Database.CancelStockBox | server-snapshots/20260917-production/server.js:3173-3205 | The statements that cancel the stock of a box give the specified state. |
| PackingDatabase.Database.ShipBox | server-snapshots/20260917-production/server.js:2972-3010 | The statements that ship a box give the specified state; what that state is for, and whose goods may go, is DoneIffAccepted, ItemEffects and ShipsOwnBrandOnly. |
| PackingDatabase.Database.ShipItem | server-snapshots/20260917-production/server.js:3012-3045 | The statements that ship an item give the specified state. |
| PackingDatabase.Database.CancelShipBox | server-snapshots/20260917-production/server.js:3104-3126 | The statements that cancel a box shipment give the specified state. |
| PackingDatabase.Database.CancelShipItem | server-snapshots/20260917-production/server.js:3127-3139 | The statements that cancel an item shipment give the specified state. |
| PackingDatabase.Database.InsertBox | server-snapshots/20260917-production/server.js:1770-1774 | The insert of a further box of a generation gives the specified state or the specified conflict. |
| PackingDatabase.Database.InsertItem | server-snapshots/20260917-production/server.js:1813-1818 | The same for a further item. |
| PackingDatabase.Database.ServeCode | server-snapshots/20260917-production/server.js:1733-2379 | Products, generated codes one by one, invalidation, deletion and verification scans give the specified states. |
| PackingDatabase.Database.Serve | server-snapshots/20260917-production/server.js:1733-3236 | Every request served statement by statement gives the specified state and answer, keeps the invariant, and meets a trigger exactly in the two cases of ConflictsExactly. |
| Crc32.ShiftsAreLinear | server-snapshots/20260917-production/server.js:3819 | Clocking the register is linear over exclusive or. |
| Crc32.BitsAtOnce | server-snapshots/20260917-production/server.js:3826 | Mixing a number into the register and clocking n times is feeding its n lowest bits one by one. |
| Crc32.LookupStep | server-snapshots/20260917-production/server.js:3826 | One turn of the checksum loop takes in exactly one byte of the bit-at-a-time register. |
| Crc32.TableWord | server-snapshots/20260917-production/server.js:3817-3820 | The inner loop of the table is eight clocks of the index. |
| Crc32.BuildTable | server-snapshots/20260917-production/server.js:3815-3823 | Every entry of the table is eight clocks of its index and fits 32 bits. |
| Crc32.Checksum | server-snapshots/20260917-production/server.js:3824-3828 | The table form computes the bit-at-a-time CRC-32 of section 8 of RFC 1952 for every byte string, as a 32-bit number. |
| Crc32.StandardConstants | server-snapshots/20260917-production/server.js:3815-3828 | The polynomial has exactly the terms of section 8 of RFC 1952, lowest exponent in the highest bit, and the register starts and ends with 32 ones. |
| Crc32.KnownValues | server-snapshots/20260917-production/server.js:3824-3828 | The checksum of no data is 0 and that of one byte FF is FF000000. |
| Crc32.BurstDetected | server-snapshots/20260917-production/server.js:3815-3828 | Two inputs that differ only inside a window of at most 32 bits never have the same checksum register. |
| ZipWriter.WriteUInt16 | server-snapshots/20260917-production/server.js:3838-3840 | A 16-bit field is stored little-endian and no other field changes. |
| ZipWriter.WriteUInt32 | server-snapshots/20260917-production/server.js:3837-3843 | A 32-bit field is stored little-endian and no other field changes. |
| ZipWriter.WriteLocalHeader | server-snapshots/20260917-production/server.js:3836-3844 | The header has every field of section 4.3.7 of the APPNOTE, unwritten ones zero. |
| ZipWriter.WriteCentralHeader | server-snapshots/20260917-production/server.js:3851-3856 | The header has every field of section 4.3.12 of the APPNOTE, unwritten ones zero. |
| ZipWriter.WriteEndRecord | server-snapshots/20260917-production/server.js:3860-3863 | The record has every field of section 4.3.16 of the APPNOTE. |
| ZipWriter.WriteLocals | server-snapshots/20260917-production/server.js:3830-3848 | The first loop puts every local record at its running offset and remembers it; it fails exactly when a name or a file is too long for its field. |
| ZipWriter.WriteCentrals | server-snapshots/20260917-production/server.js:3849-3859 | The second loop writes every central record with the offset of its local record. |
| ZipWriter.Joined | server-snapshots/20260917-production/server.js:3864 | Local records, central directory and end record joined are an archive of the entries. |
| ZipFormat.ReadsArchive | server-snapshots/20260917-production/server.js:3829-3865 | A reader that follows end record, central directory and local headers gets back exactly the names and data, with matching sizes and checksums. |
| ZipFormat.LimitsAre | server-snapshots/20260917-production/server.js:3829-3865 | What fits are fewer than 65536 entries and bytes of a name, and fewer than 4294967296 bytes of data, of local records and of central records. |
| ZipFormat.LocalHeaderBytes | server-snapshots/20260917-production/server.js:3836-3840 | The first 14 bytes of a local header, one by one. |
| ZipFormat.CentralHeaderBytes | server-snapshots/20260917-production/server.js:3851-3853 | The first 16 bytes of a central header, one by one. |
| ZipFormat.EndRecordBytes | server-snapshots/20260917-production/server.js:3860-3861 | The first 8 bytes of the end record, one by one. |
| ZipWriter.BuildZip | server-snapshots/20260917-production/server.js:3829-3865 | The archive is built if and only if every count, size and offset fits its field, and then the reader recovers every entry. |
| SaveQueue.MadeConfigIsOk | apps/scan-web/persistence.mjs:7-8 | Every delay, cap and jitter given ends up within the limits the delays rely on. |
| SaveQueueLaws.MadeConfigIs | apps/scan-web/persistence.mjs:7-8 | What becomes of each setting: zero means the default, everything else is kept within its limits. |
| SaveQueueLaws.BackoffDoubles | apps/scan-web/persistence.mjs:24 | The first wait is the base, each further failure doubles it up to the cap, and from the tenth on it stays. |
| SaveQueueLaws.DelayIsNearest | apps/scan-web/persistence.mjs:24-27 | The delay is the whole number nearest to the jittered wait, halves going up, and at least 50. |
| SaveQueueLaws.DefaultWaits | apps/scan-web/persistence.mjs:5-27 | With the default delay and cap and no jitter the waits are 500, 1000, 2000, 4000, 8000, 16000, 30000, 30000, ... ms. |
| SaveQueue.DelayBounds | apps/scan-web/persistence.mjs:24-27 | Every delay is at least 50 ms and, up to rounding, within the jitter share of the wait that BackoffDoubles fixes, so between half and one and a half of it. |
| SaveQueue.BackoffGrows | apps/scan-web/persistence.mjs:24 | That wait never shrinks with more failures. |
| SaveQueue.StepKeeps | apps/scan-web/persistence.mjs:21-67 | Every call, timer, outcome of a write and restart keeps the queue invariant. |
| SaveQueue.RunKeeps | apps/scan-web/persistence.mjs:16-67 | In every reachable state, restarts included: a timer is armed exactly when there is something to write and nothing in the way, with a delay in range; at most one write is in flight; the storage holds what a restart needs. |
| SaveQueueLaws.AttemptsAreFailures | apps/scan-web/persistence.mjs:37-66 | In every run retryAttempt is the number of failures without a conflict since the last success, retry, clearConflict or clear, counted in the list of events; a restart goes on with what was stored last. |
| SaveQueueLaws.VariablesChange | apps/scan-web/persistence.mjs:21-67 | Which event changes dirty, blocked, online, the retry count and the generation, to what, and that no other does. |
| SaveQueueLaws.StorageAndFlights | apps/scan-web/persistence.mjs:16-67 | What is stored after each event, and which write is in flight. |
| SaveQueueLaws.TimerChanges | apps/scan-web/persistence.mjs:21-67 | After each event the timer is armed with the delay of the present retry count, left alone or gone. |
| SaveQueueLaws.SuccessCleans | apps/scan-web/persistence.mjs:37-40 | After any history, the success of a write with no edit and no clear since it started leaves queue and snapshot clean, without a timer and with no failures counted. |
| SaveQueueHistory.NoLostUpdate | apps/scan-web/persistence.mjs:29-57 | A clean queue whose last edit was not cleared has a successful write that started after that edit. |
| SaveQueueHistory.AtMostOneWrite | apps/scan-web/persistence.mjs:29-33 | No interleaving has two writes in flight. |
| SaveQueueHistory.TimerStartsWrite | apps/scan-web/persistence.mjs:29-34 | When the timer runs out the write of the present edits starts at once. |
| SaveQueueHistory.RestartContinues | apps/scan-web/persistence.mjs:17-20 | A restart outside a failing write's callbacks keeps dirty, blocked and retry count, and arms the timer exactly when it should. |
| SaveQueueHistory.ConflictSilences | apps/scan-web/persistence.mjs:37-50 | From a version conflict on, its callbacks included, a run without retry, clearConflict or clear stays blocked with no write started if and only if no restart in it finds a snapshot from before the conflict. |
| SaveQueueHistory.SilentUntilResolved | apps/scan-web/persistence.mjs:17-67 | A blocked queue starts no write in any calls, online switches and restarts that do not resolve the conflict if and only if the stored snapshot has it. |
| SaveQueueHistory.EndedIsStored | apps/scan-web/persistence.mjs:45-50 | Once the failed write has ended the snapshot has it. |
| SaveQueueHistory.ForgottenConflictWrites | apps/scan-web/persistence.mjs:17-45 | Restarted from a snapshot without it, a blocked queue writes the next edit, and a dirty snapshot at once. |
| SaveQueueHistory.DirtyAgain | apps/scan-web/persistence.mjs:17-66 | A clean queue becomes dirty if and only if it is edited, a write in flight fails, or it is restarted from a snapshot that is still dirty. |
| SaveQueueHistory.ClearStays | apps/scan-web/persistence.mjs:64 | A clear with no write pending, also one from inside the callbacks of a failed write, is final until the next edit, restarts included. |
| SaveQueueHistory.ClearCanBeUndone | apps/scan-web/persistence.mjs:41-64 | In every reachable queue with a write pending, the failure of that write undoes a clear and arms the timer again when online. |
| SaveQueueHistory.ClearIsFinal | apps/scan-web/persistence.mjs:41-64 | A clear is final, over all runs without an edit, if and only if no write is pending. |
| SaveQueueExamples.ClearIsUndone | apps/scan-web/persistence.mjs:29-64 | A run of a new page: an edit is being written, is cleared, fails, and is dirty with its timer armed. |
| SaveQueueExamples.ConflictIsForgotten | apps/scan-web/persistence.mjs:17-45 | A run of a new page: a write meets a conflict, the page is opened again in its callbacks, and writes. |
| SaveQueueProgram.PersistenceQueue.constructor | apps/scan-web/persistence.mjs:5-28 | The queue starts from the stored snapshot as specified. |
| SaveQueueProgram.PersistenceQueue.ArmTimer | apps/scan-web/persistence.mjs:21-28 | schedule arms the timer exactly when writing is possible. |
| SaveQueueProgram.PersistenceQueue.StartWrite | apps/scan-web/persistence.mjs:29-36 | flush up to the write is one step of the protocol. |
| SaveQueueProgram.PersistenceQueue.WriteSucceeded | apps/scan-web/persistence.mjs:37-50 | The success path is one step: dirty is cleared exactly when no edit came in between. |
| SaveQueueProgram.PersistenceQueue.WriteRejected | apps/scan-web/persistence.mjs:41-44 | The catch block up to the callback is one step. |
| SaveQueueProgram.PersistenceQueue.EndRejected | apps/scan-web/persistence.mjs:45-50 | The end of a failed write is one step. |
| SaveQueueProgram.PersistenceQueue.Mark | apps/scan-web/persistence.mjs:52-57 | markDirty is one step. |
| SaveQueueProgram.PersistenceQueue.ResolveConflict | apps/scan-web/persistence.mjs:62 | clearConflict is one step. |
| SaveQueueProgram.PersistenceQueue.RetryNow | apps/scan-web/persistence.mjs:63 | retry is one step and starts a write exactly when one can start. |
| SaveQueueProgram.PersistenceQueue.Discard | apps/scan-web/persistence.mjs:64 | clear is one step. |
| SaveQueueProgram.PersistenceQueue.SwitchOnline | apps/scan-web/persistence.mjs:65 | setOnline is one step. |
| Gs1CheckDigit.ValidIsBalanced | apps/scan-api/src/gs1.mjs:1-7 | The reversed-index validator accepts exactly the digit strings of an allowed length whose weighted sum is a multiple of ten. |
| Gs1CheckDigit.GtinIsValid | apps/scan-api/src/gs1.mjs:9 | A GTIN is valid if and only if it is 8, 12, 13 or 14 digits and balanced. |
| Gs1CheckDigit.SsccIsValid | apps/scan-api/src/gs1.mjs:11 | A container key is valid if and only if it is 18 digits and balanced. |
| Gs1CheckDigit.Gs1Mod10Valid | apps/scan-api/migrations/021_gs1_master_data.sql:1-12 | The positional database validator agrees with the service on every text. |
| Gs1CheckDigit.Gs1Mod10CheckDigit | apps/scan-api/migrations/022_sscc_allocation.sql:28-39 | The database check digit is the one that balances the data; anything but digits is an error. |
| Gs1CheckDigit.ChangedDigitIsDetected | apps/scan-api/src/gs1.mjs:1-7 | No change of one character of a valid key is valid. |
| Gs1CheckDigit.ExchangedDigits | apps/scan-api/src/gs1.mjs:1-7 | Exchanging two neighbours of a valid key stays valid if and only if they are equal or five apart. |
| Gs1CheckDigit.DecimalLength | apps/scan-api/migrations/022_sscc_allocation.sql:48-49 | The length test of one builder is the capacity test of the other. |
| Gs1CheckDigit.Gs1Sscc | apps/scan-api/migrations/022_sscc_allocation.sql:41-52 | The database builder succeeds on the same inputs as the service with the same key. |
| Gs1CheckDigit.SsccAccepted | apps/scan-api/src/gs1.mjs:13-22 | A key is built exactly for a prefix of 4 to 12 digits, a one-digit extension and a reference that fits what is left of 16 digits. |
| Gs1CheckDigit.BuiltSsccIsValid | apps/scan-api/src/gs1.mjs:19-27 | A built key has 18 digits, is valid and carries extension, prefix and reference in place. |
| Gs1CheckDigit.SsccIsInjective | apps/scan-api/src/gs1.mjs:19-27 | Different allocations with prefixes of one length never share a key. |
| Gs1CheckDigit.PaddedGtinIsValid | apps/scan-api/src/gs1.mjs:29-32 | A valid GTIN padded to 14 digits is valid and is the same number. |
| Gs1CheckDigit.LinkGtinIsSameNumber | apps/scan-api/src/gs1.mjs:29-32 | The key of a digital link is built if and only if the GTIN is valid, and then has 14 digits, is valid and is the same number. |
| Gs1CheckDigit.SameGtinSameKey | apps/scan-api/src/gs1.mjs:29-32 | Two texts give the same key if and only if they are valid GTINs of one number, or neither is valid. |
| Gs1Path.XCharTwinsAgree | apps/scan-api/migrations/024_gs1_lot_qualifier.sql:1-4 | The service and the database accept the same batch numbers. |
| Gs1Path.EncodingRoundTrip | apps/scan-api/src/gs1.mjs:46-49 | Encoding succeeds exactly on valid batch numbers, decoding inverts it, and the result has only unreserved characters and %HH (sections 2.1 and 2.3 of RFC 3986). |
| Gs1Path.EncodesExactlyReserved | apps/scan-api/src/gs1.mjs:46-49 | The two passes together percent-encode exactly the characters that are not unreserved and leave the others. |
| Gs1Path.CodeRoundTrip | apps/scan-api/src/code-job-worker.mjs:43-45 | A code string is read back to its GTIN, batch and serial. |
| Gs1Path.CodesAreDistinct | apps/scan-api/src/code-job-worker.mjs:38-45 | Distinct triples give distinct codes, and no item code is a pallet code. |
| Gs1Path.SequentialSerialsDiffer | apps/scan-api/src/code-job-worker.mjs:44 | Sequential serials of different indices differ within twelve digits. |
| CodeJobsInvariant.StepKeeps | apps/scan-api/src/code-job-worker.mjs:6-59 | Creating, approving, taking, committing, rolling back, cancelling and retrying jobs, and codes added elsewhere, keep the job invariant. |
| CodeJobsInvariant.RunKeeps | apps/scan-api/src/code-job-worker.mjs:6-67 | In every run a job has exactly as many rows as it has counted, never more than its quantity, and is COMPLETED exactly when equal; a taken job is still what its worker read; reserved intervals are disjoint. |
| CodeJobsInvariant.ReserveKeeps | apps/scan-api/src/saas-routes.mjs:283-289 | Approving a pallet job reserves references that no other job has, within the capacity of the prefix. |
| CodeJobsCodes.FitJobHasCodes | apps/scan-api/src/code-job-worker.mjs:33-49 | The code builders never fail for a job that passes the worker's checks. |
| CodeJobsCodes.HashExists | apps/scan-api/src/code-job-worker.mjs:44 | Hashes that tell jobs and indices apart exist for any set of jobs with ids below 10 to the 13th, so what assumes one is not empty. |
| CodeJobsCodes.CodesDiffer | apps/scan-api/src/code-job-worker.mjs:36-49 | If the hash tells the two jobs apart, codes of different indices or jobs differ unless both jobs are SEQUENTIAL with the same batch and with GTINs of the same number, and the index is the same. |
| CodeJobsContents.CodeSays | apps/scan-api/src/code-job-worker.mjs:36-49 | Every code that can be built, read back: an item code has a valid GTIN of 14 digits with the number of the job's, the job's batch, and as serial the number index + 1 in twelve digits or the hash of the job and index + 1; a pallet code has a valid container key with extension 0, the job's prefix and the reference start + index. |
| CodeJobsContents.FitJobSays | apps/scan-api/src/code-job-worker.mjs:16-49 | A job that passes the worker's checks has such a code at every index. |
| CodeJobsContents.RowsSay | apps/scan-api/src/code-job-worker.mjs:36-56 | In every run each row a job made says what the job was ordered for, at one of its indices. |
| CodeJobsCommands.StatusChanges | apps/scan-api/src/code-job-worker.mjs:16-57 | In every reachable state, the status of every job after every command, from its row and the locks. |
| CodeJobsCommands.Ordered | apps/scan-api/src/saas-routes.mjs:261-276 | A job is accepted for 1 to 1000000 codes with a batch that can be printed or none, and starts with no codes, pending approval. |
| CodeJobsCommands.Reserves | apps/scan-api/src/saas-routes.mjs:283-289 | An approved pallet job gets the next references of the tenant's prefix, as many as it has codes; anything else moves no counter. |
| CodeJobsCommands.PrefixChanges | apps/scan-api/src/saas-routes.mjs:131-141 | A prefix of 4 to 12 digits is taken until references of another are in use. |
| CodeJobsCommands.Takes | apps/scan-api/src/code-job-worker.mjs:8-15 | A free worker takes a job if and only if it can run, nobody holds it and every older job that can run is held. |
| CodeJobsCommands.LocksLast | apps/scan-api/src/code-job-worker.mjs:6-59 | A lock lasts until its worker commits or rolls back, which leaves everything else. |
| CodeJobsCommands.ChunkRows | apps/scan-api/src/code-job-worker.mjs:33-57 | A chunk is what is left of the job, at most 10000 codes: exactly those without a row get one, owned by the job and counted, and no other row changes. |
| CodeJobsTheorems.FullProgress | apps/scan-api/src/code-job-worker.mjs:33-56 | A chunk advances the count by its whole size if and only if none of its codes exists; then its rows are its codes in order. The hash must tell the indices of this job apart. |
| CodeJobsTheorems.BlockedForever | apps/scan-api/src/code-job-worker.mjs:36-56 | A job with an existing code at an index it has not counted never completes, whatever happens afterwards and whatever the hash is. |
| CodeJobsProgress.FinishesUnlessBlocked | apps/scan-api/src/code-job-worker.mjs:33-56 | A job that is not blocked completes after one chunk for every started 10000 of what is left. |
| CodeJobsProgress.CanFinish | apps/scan-api/src/code-job-worker.mjs:6-59 | A fit job a worker can take completes in some run if and only if it is not blocked. |
| CodeJobsExact.CompletedRowsAreAll | apps/scan-api/src/code-job-worker.mjs:33-56 | In every run, for every hash, with other jobs of its series and codes from elsewhere: the rows of a COMPLETED job are exactly the codes of all its indices. |
| CodeJobsExact.CleanUnlessBlocked | apps/scan-api/src/code-job-worker.mjs:33-56 | In every run, other jobs of its series and codes from elsewhere included, the rows of a job that is not blocked are, in order, the codes of indices 0, 1, 2, ... up to its count. The hash must tell the indices of this job apart. |
| CodeJobsExact.RunRowsAreCounted | apps/scan-api/src/code-job-worker.mjs:33-56 | So a row is such a job's if and only if it has the code of an index below its count. |
| CodeJobsSeries.FirstLostIsBlocked | apps/scan-api/src/code-job-worker.mjs:43-45 | In every run a job whose first code has a row that is not its own is blocked. |
| CodeJobsSeries.BlockedIffOvertaken | apps/scan-api/src/code-job-worker.mjs:43-45 | In every run without codes from elsewhere, partly inserted chunks included, with a hash that tells the jobs apart: a job is blocked if and only if another SEQUENTIAL job with its GTIN and batch has written the first code. |
| CodeJobsSeries.OvertakenNeverFinishes | apps/scan-api/src/code-job-worker.mjs:43-56 | A job whose first code is not its own never completes in any run, whatever the hash is. |
| CodeJobsSeries.CleanRun | apps/scan-api/src/code-job-worker.mjs:6-59 | In every run without codes from elsewhere, with a hash that tells the jobs apart, a job that shares GTIN and batch with no other SEQUENTIAL job, or is none itself, is never blocked and its rows are its first codes in order. |
| CodeJobsExample.SecondOfSeriesIsStuck | apps/scan-api/src/code-job-worker.mjs:43-56 | For every valid GTIN and batch: two SEQUENTIAL jobs are created and approved, the first completes, and the second is overtaken, blocked and incomplete after every further run. |
| CodeJobsExample.SecondOfSeriesSkips | apps/scan-api/src/code-job-worker.mjs:33-56 | Its own chunk then counts one index but its row is that of the next, so its rows are not its first codes. |
| CodeJobsExample.ThirdJobStarves | apps/scan-api/src/code-job-worker.mjs:8-14 | A third job created and approved behind it is never taken by a single worker, in any further run that does not cancel the blocked one. |
| CodeJobsExample.SampleRun | apps/scan-api/src/code-job-worker.mjs:8-14 | The same for one literal GTIN, so the run can happen. |
| CodeJobsStarvation.Starved | apps/scan-api/src/code-job-worker.mjs:8-14 | While as many older jobs are blocked as there are workers, no younger job is taken in any run of those workers, with jobs created, approved and retried in between. |
| CodeJobsStarvation.TakenIffEnoughWorkers | apps/scan-api/src/code-job-worker.mjs:8-14 | A job that nobody holds, whatever is before it, is taken in some run of a pool of workers that cancels none of the blocked jobs before it if and only if these are fewer than the workers. |
| CodeJobsExact.ContainerKeysDiffer | apps/scan-api/src/saas-routes.mjs:283-289 | Pallet jobs approved at any time never form the same container key. |
| CodeJobWorker.Database.SelectJob | apps/scan-api/src/code-job-worker.mjs:8-15 | The oldest job that can run and is not locked is taken, if there is one. |
| CodeJobWorker.Database.CodeSeries | apps/scan-api/src/code-job-worker.mjs:37-48 | The codes of a chunk are those of the indices from the count on, and each says its index as CodeSays states. |
| CodeJobWorker.Database.InsertRows | apps/scan-api/src/code-job-worker.mjs:37-47 | Codes that exist are skipped, the others get a row and are returned. |
| CodeJobWorker.Database.RunTaken | apps/scan-api/src/code-job-worker.mjs:16-57 | The statements after the lock are one Commit step of the protocol. |
| Outbox.BackoffIsPower | apps/scan-api/src/outbox-worker.mjs:32 | Within ten attempts the wait is the plain power of two; neither cap is reached. |
| Outbox.StepKeeps | apps/scan-api/src/outbox-worker.mjs:7-36 | Claims, deliveries, outcomes, crashes and the clock keep the lease invariant while live workers are within their leases. |
| OutboxDelivery.ProcessedIffDelivered | apps/scan-api/src/outbox-worker.mjs:19-27 | In every run, with replays, crashes and workers outside their leases, a row is processed if and only if a delivery of it has been recorded, counted in the list of actions. |
| OutboxDelivery.DeliveredIsFinal | apps/scan-api/src/outbox-worker.mjs:9-27 | From then on, in every further run, no worker can claim it. |
| OutboxDelivery.AfterDone | apps/scan-api/src/outbox-worker.mjs:19-27 | A recorded delivery makes the row processed at once and ends the worker's part. |
| OutboxDelivery.AfterAdd | apps/scan-api/src/outbox-worker.mjs:9-11 | A new row can be claimed at once. |
| OutboxDelivery.AfterClaim | apps/scan-api/src/outbox-worker.mjs:9-14 | A claimed row can be claimed again exactly when more than five minutes have passed. |
| OutboxDelivery.AfterFailure | apps/scan-api/src/outbox-worker.mjs:28-34 | After failure n the row can be claimed exactly when n is below ten and 2 to the n seconds have passed; the tenth makes it dead. |
| OutboxDelivery.AfterReplay | apps/scan-api/src/saas-routes.mjs:342 | A replayed row that is not processed can be claimed at once, with no failures counted. |
| OutboxDelivery.RowsLeftAlone | apps/scan-api/src/outbox-worker.mjs:25-26 | An accepted document, a crash and the clock change no row; the worker remembers the acceptance. |
| OutboxDelivery.OtherRows | apps/scan-api/src/outbox-worker.mjs:7-36 | No event touches a row it is not about. |
| OutboxDelivery.DeadUntilReplayed | apps/scan-api/src/outbox-worker.mjs:9-11 | In every run in which no approval meets a held row, a dead row is claimed by nobody until a replay of it is approved. |
| OutboxDelivery.FilingIs | apps/scan-api/src/saas-routes.mjs:341 | A replay request is accepted if and only if its row is dead and has no pending one, whatever became of earlier ones. |
| OutboxDelivery.AfterDecision | apps/scan-api/src/saas-routes.mjs:342 | A decision is recorded as it was taken, and only an approval resets the row. |
| OutboxDelivery.DecidedOnce | apps/scan-api/src/saas-routes.mjs:342 | A request that was decided stays as decided in every further run. |
| Outbox.NeverStuck | apps/scan-api/src/outbox-worker.mjs:10-11 | A row that is neither processed nor dead can be claimed after at most 1024 seconds. |
| Outbox.LeaseIsExact | apps/scan-api/src/outbox-worker.mjs:10-11 | A live worker's row can be claimed by another if and only if its lease has run out. |
| Outbox.LateWorkerShares | apps/scan-api/src/outbox-worker.mjs:7-17 | A worker that outlives its lease does share its row. |
| OutboxExamples.LateWorkerRun | apps/scan-api/src/outbox-worker.mjs:7-17 | A run from an empty outbox in which that happens. |
| Outbox.ReplayKeeps | apps/scan-api/src/saas-routes.mjs:342 | A replay keeps the invariant if and only if no live worker holds the row, and none holds a dead or processed one. |
| Outbox.ReplaySharesIffHeld | apps/scan-api/src/saas-routes.mjs:342 | A replay and a claim give the row to two live workers if and only if one holds it already. |
| OutboxReplay.RunKeeps | apps/scan-api/src/saas-routes.mjs:341-342 | With replay requests filed, approved and rejected among the workers' steps, a pending request is for a dead row, one per row is pending, and the lease invariant holds, in every run whose inserts find their row as it was read. |
| OutboxReplay.OneWorkerPerRow | apps/scan-api/src/outbox-worker.mjs:7-17 | In every run in which live workers are within their leases and no approval meets a row that is held, no two live workers hold one row, however late requests are inserted. |
| OutboxReplay.ApprovalSharesIffHeld | apps/scan-api/src/saas-routes.mjs:342 | After every such run the next approval lets its row be claimed by a second live worker if and only if one holds it. |
| OutboxReplay.RowOutcomes | apps/scan-api/src/outbox-worker.mjs:19-36 | In every such run no row is both processed and dead, its attempts are the failures recorded since its last approved replay and at most ten, dead means exactly ten, and for a processed row the receiver has accepted its document. |
| OutboxReplay.OrderlyIsUndisturbed | apps/scan-api/src/saas-routes.mjs:341-342 | When every request is inserted while its row is still dead, no approval meets a row that is held. |
| OutboxReplay.SerialIsOrderly | apps/scan-api/migrations/011_saas_core.sql:375 | When requests are filed with nothing between read and insert, the dead-row check and the unique index alone make every run such a run. |
| OutboxReplay.SerialIsAdjacent | apps/scan-api/src/saas-routes.mjs:341 | These runs end as those in which read, insert and the end of the transaction stand side by side, refused inserts included. |
| OutboxExamples.RaceShares | apps/scan-api/src/saas-routes.mjs:341-342 | A run from the start in which an approval falls between read and insert of a second request ends with two workers within their leases on one row. |
| OutboxWorker.Database.ClaimOutboxEvent | apps/scan-api/src/outbox-worker.mjs:7-17 | The oldest row that can be claimed is leased, if there is one. |
| OutboxWorker.Database.RecordFailure | apps/scan-api/src/outbox-worker.mjs:28-35 | The failure statement is the Fail step. |
| OutboxWorker.Database.ProcessOutboxEvent | apps/scan-api/src/outbox-worker.mjs:19-36 | Processing is the steps its outcome calls for, of which AfterDone and AfterFailure say what they leave, and keeps the invariant. |
| Idempotency.StepKeeps | apps/scan-api/src/idempotency.mjs:7-32 | Every statement of any transaction, a rollback and the clock keep the invariant. |
| Idempotency.OnceAndAlike | apps/scan-api/src/manual-recovery-routes.mjs:10 | The first answer of a key is that of its one committed work; every later answer is the stored one to the same request or a refusal to a different one. |
| Idempotency.AtMostOnce | apps/scan-api/src/manual-recovery-routes.mjs:10 | The work of a key commits at most once, ever. |
| Idempotency.OnlyCommitsLeaveTraces | apps/scan-api/src/idempotency.mjs:26-32 | A transaction that does not commit leaves neither effect nor record. |
| Idempotency.CommitAnswers | apps/scan-api/src/manual-recovery-routes.mjs:10 | A commit ends the transaction, frees its lock and answers once, with the work's own answer or the stored one. |
| Idempotency.AbortAnswers | apps/scan-api/src/idempotency.mjs:11-24 | A rollback ends the transaction and frees its lock; it answers only a refusal, and with a conflict. |
| Idempotency.LockIsExclusive | apps/scan-api/src/idempotency.mjs:7-10 | A transaction gets its lock if and only if every other one of its key is still waiting. |
| Idempotency.RetryWithinLifetime | apps/scan-api/src/idempotency.mjs:11-24 | A retry within the lifetime gets the stored response exactly for the same request and is refused exactly for another. |
| Idempotency.WorkCommitsOnlyOnce | apps/scan-api/src/idempotency.mjs:26-32 | Finished work can commit if and only if its key has no record, expired ones included. |
| Idempotency.BrokenStaysBroken | apps/scan-api/src/idempotency.mjs:26-32 | A transaction whose insert failed can only be rolled back. |
| IdempotencyExample.ExpiredKeyFails | apps/scan-api/src/idempotency.mjs:11-32 | For every key, requests and answers: once the first use is stored and a lifetime has passed, the second use does its work, fails on the insert and can only be rolled back. |
| Idempotency.Store.GetIdempotentResponse | apps/scan-api/src/idempotency.mjs:11-24 | The lookup is one step. |
| Idempotency.Store.Command | apps/scan-api/src/manual-recovery-routes.mjs:10 | A whole command run alone: replay, refusal, failure on an expired record, or work, record and answer. |
| CsvExport.ReadsCell | apps/scan-api/src/code-export-worker.mjs:9 | A printed cell is read back as guarded, whatever it contains. |
| CsvExport.QuotedIffNeeded | apps/scan-api/src/code-export-worker.mjs:9 | A cell is quoted if and only if its text has a comma, a quote or a line break in it; otherwise it is written as it is. |
| CsvExport.CellsAreNamed | apps/scan-api/src/code-export-worker.mjs:17-18 | Every cell of a row shows the column of the item that the header above it names: behind an apostrophe if it starts with = + - @, else as it is, and never starting with one of these. |
| CsvExport.ReadsLines | apps/scan-api/src/code-export-worker.mjs:18 | A reader of section 2 of RFC 4180 gets back every cell of every line. |
| CsvExport.PageThenRest | apps/scan-api/src/code-export-worker.mjs:17-18 | A page and what follows its last id are all rows above the cursor, and a page that is not full is the last. |
| CsvExport.AscendingIsAll | apps/scan-api/src/code-export-worker.mjs:17-18 | The ascending listing holds exactly the ids above the cursor, each once, in order. |
| CsvExport.HeaderLine | apps/scan-api/src/code-export-worker.mjs:17 | The header text is the printed header cells. |
| CsvExport.WriteExport | apps/scan-api/src/code-export-worker.mjs:17-18 | A reader of the export gets the five header names and one line for each row of the batch, in ascending order of ids, each once, every cell showing the column its header names; the loop ends. |
| RateLimiter.Limiter.RecordAttempt | server-snapshots/20260917-production/server.js:3389-3396 | The table keeps exactly the rows that have not expired, unchanged, beside the row of the source that asks, and gives the specified state. |
| RateLimiter.Limiter.VerificationRateLimit | server-snapshots/20260917-production/server.js:3397-3407 | A request passes exactly when its attempt is within the limit; otherwise waiting as told reaches the reset, and a second less, when more than one, would not. |
| RateLimiter.WindowOpens | server-snapshots/20260917-production/server.js:3371-3396 | The row of a source counts the attempts since the one that opened its window, which ends 60000 ms after that attempt, and the last is admitted if and only if these are at most 60. |
| RateLimiter.CleanupChangesNothing | server-snapshots/20260917-production/server.js:3388-3396 | Under a nondecreasing clock every decision is the one the source would get alone and without cleanup. |
| RateLimiter.SourceIsLimited | server-snapshots/20260917-production/server.js:3371-3407 | In any half-open interval of the window's length a source gets at most 2 * 60 - 1 requests through. |
| RateLimiter.BoundIsExact | server-snapshots/20260917-production/server.js:3371-3396 | For every source there are requests under a nondecreasing clock that reach that bound. |
| RateLimiter.RewoundClockBreaksBound | server-snapshots/20260917-production/server.js:3388-3396 | Under a clock that goes back, 3 * 60 - 2 requests of a source get through in one window's length. |

## Left out

- HTTP, sessions, roles, brand scopes and factory authorisation of the production server: an operator and an "authorised" answer are inputs of a request. Every account has a brand (server.js:4635), so a missing or zero brand of generated codes does not arise.
- PackingGoods.GoodsStayInBrand: a distributor is its id and the brand the shipping request reads for it; that this brand does not change between requests is assumed, since distributors are not a table of the model.
- Message texts and log rows: all refusals of a handler are one answer, and of the packing records only which codes they mention is kept, since the guards read nothing else.
- Columns no guard reads (order numbers, remarks, scan location, operator names) and the distributors table.
- Box and item codes: a code is another name of the row's AUTOINCREMENT id, so the retry after a collision of random codes is not modelled.
- Reads, reports, uploads, QR images, Excel import and the one-off back-fill of old receipt rows; runs start from an empty database.
- The scan and shipment handlers as batches over several codes: each code is one request, as their loops treat it. A generation is its first code and one request for every further one. The rows a code package writes at once are that many generated codes.
- ZipWriter.BuildZip: names are the UTF-8 bytes the writer stores, so the replacement of unpaired surrogates is not modelled, nor is the limit on buffer sizes; a count or size of all ones is taken literally, not as a ZIP64 marker.
- ZipWriter.WriteLocals: the list of buffers joined at the end is kept joined from the start.
- Crc32.BuildTable: the words of the signed array are modelled by the unsigned numbers with the same bits.
- SaveQueue.RunKeeps: storage that fails or is missing, callbacks that throw, and generation counters beyond 2^53 are not modelled; times and random numbers are real numbers between the given limits.
- Gs1CheckDigit.Gs1Sscc: references are unbounded integers instead of 64-bit ones; both builders refuse anything that long.
- CodeJobsInvariant.RunKeeps: one tenant, with the GTIN of a job fixed; a product whose GTIN is edited while a job runs is not modelled, nor are monthly quotas and the order of jobs created at the same instant.
- CodeJobsSeries.BlockedIffOvertaken: the hash behind RANDOM serials is an abstract function, assumed not to repeat itself over the jobs of the run and the indices they can have.
- CodeJobsStarvation.TakenIffEnoughWorkers: the run that reaches the job may roll transactions back and cancel older jobs that are not blocked; letting them finish could block others of their series.
- OutboxReplay.RunKeeps: who files and who approves a request, and its reason, are not modelled.
- Outbox.StepKeeps: the receiving service is an answer; that it drops a document it already has is not used.
- The claim of code exports, which is a second lease with 15 minutes, and the login limiter, which is a second fixed window: they would repeat the outbox and the verification limiter.
- Idempotency.Store.Command: the hash of a request is an opaque text, and hash collisions of the advisory lock only make unrelated keys wait.
- The upload of the export, its hash and size: I/O.
- CsvExport.WriteExport: the rows of a completed batch do not change while it is exported.
- RateLimiter.SourceIsLimited: a clock that goes back is not covered; RewoundClockBreaksBound shows why.
- `gs1DigitalLink`, GLN validation, EPCIS documents, webhooks, metrics, the browser app: single expressions or I/O.
