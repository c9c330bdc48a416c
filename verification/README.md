# Bareflank driver: verified model

The driver loads a hypervisor (the VMM) into kernel memory, starts it on every processor, stops it
and unloads it again. This project models

- `src/common.c`: the driver's global state, from `common_add_module` to `common_fini`, with every
  `goto` path and every call that can fail,
- `src/arch/linux/entry.c`: the ioctl layer, its second table of module buffers and the reboot
  notifier,
- `src/arch/uefi/Platform.c`: page counts and processor switches of the UEFI platform.

and proves, for every sequence of calls and every pattern of failures of the outside, what memory
is alive when, which processors are inside the VMM when memory is freed, what is undone in which
order, which pages are announced to the VMM's memory manager, where the module tables and the
allocation ledger agree, and which answers of the outside lead each call to which outcome.

## How the model works

The program is imperative: `Common.dfy` (class `Driver`) and `Entry.dfy` (class `Device`) follow
the C functions statement by statement, on fields and fixed-size arrays; `Uefi.dfy` does the same
for the UEFI platform. Each method is proved to compute the function of the same name in
`CommonModel.dfy` or `EntryModel.dfy`, and the properties are lemmas about these functions.
`View()` ties the two: the part of a table that is in use is a sequence, and `Valid()` says that
the rest of the table is zero and that the platform is in order.

`Outcomes.dfy` and `IoOutcomes.dfy` say which answers lead where. For each call there is a reference
definition that looks for the first step that is due and fails (`StopEndOf`, `StartEndOf`,
`LoadEndOf`, `FinishEndOf`, `VerdictOn`), and a lemma that the call ends there, with which result, status,
counter, processors, requests and memory.

The outside (`Machine.dfy`, class `Platform` in `Platform.dfy`) answers each call from an arbitrary
sequence of answers, one for each call; a lemma about all `Env` values is a lemma about every
pattern of failures. The machine records what the proofs speak about: the ledger of live blocks,
the current processor, the processors inside the VMM, whether the VMM is initialised (it accepted
INIT and no FINI since), the per-processor requests that succeeded,
the descriptors the VMM accepted, and a log of every thread context written and every block freed,
each with the memory and the processors at that moment.

On UEFI the same platform object runs the code of `Platform.c` over a firmware that has its own page
table and current processor; every call is proved to keep both in step with the machine.
`UefiRuns.RunOnUefi` puts the driver, the platform layer and the firmware together for whole runs.

Build-time constants (`MAX_PAGE_SIZE`, `STACK_SIZE`, `THREAD_LOCAL_STORAGE_SIZE`,
`MAX_NUM_MODULES`, the size of a thread context) have no fixed value: the first two are any powers
of two below 2^60, the third any positive multiple of the page size below 2^60. Unsigned 64-bit
arithmetic is written out (`Wrap`, `Mask`), and `x & ~(p - 1)` is proved to be `x - x % p` from a
digit-by-digit definition of `&`.

Contracts assumed of the outside; an answer that breaks one is read as a refusal:

- an allocator returns a range that is not null, not in use, and ends at least one page below 2^64
  (on UEFI a range of whole pages); Linux and Windows refuse a length of 0
  (`src/arch/linux/platform.c:44-60`);
- `bfelf_load` leaves each module's image as it was, clears it, or sets it to a fresh block that
  contains all the segments, in the order of the table, and may do so even when it fails;
- a refused vmcall changes nothing, an accepted one moves the current processor into or out of the
  VMM; a non-negative `platform_set_affinity(k)` pins the caller to processor k;
- ioctls are serialised, and all success codes are one value;
- each call may come from any processor, except on UEFI, where the caller stays where it was left.

## Where a plausible claim is false

- *The driver never loses memory.* `common_load_vmm` returns without a rollback when a TLS page is
  refused (`src/common.c:361-362`), and the next load overwrites the pointers.
  `Witnesses.RetryLosesMemory` gives the run; `Invariant.LedgerIsExact` proves that the ledger is
  exact if and only if no load is issued while UNLOADED with modules and a non-null `g_stack`. The
  ioctl layer repairs the case, so `Tables.IoLedgerIsExact` needs no condition.
- *The started processors are the launched ones.* A processor is counted before its START vmcall
  (`src/common.c:447-452`). `Witnesses.RefusedStartLeavesGap` gives a run that ends running with two
  processors counted and one inside the VMM. `Gaps.StartLeavesGap` proves that a start leaves such a
  gap if and only if the VMM answers the START vmcall of some processor with a non-zero code (or the
  rollback breaks down between a STOP and its FINI), and `Gaps.CountedAreLaunched` that a run ends
  with one if and only if the last start was refused and no processor was stopped since, or the VMM
  is corrupt because it accepted the STOP of a processor and the FINI failed. The gap is never wider
  (`Runs.LaunchedIsPrefix`).
- *An initialised VMM keeps its memory until it accepted FINI.* A load that fails after INIT resets
  from UNLOADED without a FINI (`src/common.c:369-371`, `src/common.c:387-401`).
  `Finalisation.FiniBeforeFree` proves that the driver is UNLOADED exactly while the VMM is not
  initialised, throughout a run, if and only if no load of the run fails after its INIT was accepted;
  `Finalisation.IoFiniBeforeFree` proves for the ioctl layer that memory of the driver is given back
  only after FINI under exactly that condition. `Witnesses.UnloadPullsMemory` gives a failing run.
- *Segments on different pages are never announced writable and executable.* The end of a segment
  is inclusive in the page loop (`src/common.c:162-168`). `Pages.BytesApartIsNotEnough` gives two
  such segments, `Witnesses.LoadDeliversMixedPage` a run that delivers such a page, and
  `Pages.WritableXorExecutable` the exact condition.
- *The page loop ends.* Only if one page beyond its end does not wrap: `Pages.PageLoopEnds`.
- *No page is announced without need.* The loop over the TLS block has an inclusive end too
  (`src/common.c:358`): `TlsSlots.TlsPagesAreTight` says when it announces a page that holds no byte
  of the block, and `Witnesses.LoadDeliversEmptyPage` gives a run that does.
- *Nothing stays allocated when the kernel module exits.* `dev_exit` runs `common_fini`, which does
  not touch `pmodules`. `Witnesses.ExitLeaksModule` adds a module and exits;
  `Tables.ExitLeavesBuffers` proves that nothing stays allocated if and only if the unload goes
  through and no module is in the table. The unload goes through if and only if, from the last
  processor on, the switch to the processor succeeds, its STOP is accepted, and the arguments of its
  FINI can be set up and the FINI is accepted, and at last the same holds of the FINI of the VMM
  (`Tables.FinishUnloads`); a processor switch or an argument setup that fails prevents it too.

The tests under `test/` address an older interface (`execute_symbol`, a CORRUPT state after a
refused stop); where they differ, the model follows `src/common.c`.

## Model

| member | source | states |
|---|---|---|
| Runs.LaunchedIsPrefix | src/common.c:412-522 | Over every run: no processor is inside the VMM while UNLOADED (counter 0) or LOADED (counter at most 1); while RUNNING with counter n, [0,n) are inside, or [0,n-1) and n is at least 2; while CORRUPT [0,n) or [0,n-1) |
| Runs.FreedOnlyOutsideVmm | src/common.c:194-229 | Over every run: each block the driver frees was alive with exactly that address, length and kind, and no processor was inside the VMM |
| Runs.ContextsAreOnLiveStacks | src/common.c:89-115 | Over every run, including dump while CORRUPT: each thread context used by call_vmm ends one byte below the last multiple of STACK_SIZE in a live stack, the stack pointer is the byte below it with the rest of STACK_SIZE bytes of that stack underneath, and START/STOP related requests name the processor stored in the context |
| Outcomes.ContextWritten | src/common.c:89-115 | Every call into the VMM whose arguments can be set up writes exactly one thread context, for its request, with the processor the caller is on |
| Runs.LoadedIsReady | src/common.c:298-375 | Over every run: outside UNLOADED the entry point is non-null, stack and TLS block are alive and g_stack_top belongs to the live stack |
| Invariant.EveryRunIsSafe | src/common.c:189-543 | The inductive invariant behind the four rows above is kept by every call, with every external failure |
| Invariant.LossAlongRun | src/common.c:298-375 | Memory no pointer refers to never comes back, and along any run it grows exactly when a load is a retry |
| Invariant.LedgerIsExact | src/common.c:354-364 | From boot, live memory is exactly what the driver's pointers refer to if and only if the run has no retry |
| Witnesses.RetryLosesMemory | src/common.c:361-362 | A concrete run (add, load refused on a TLS page, load) that is a retry and after which more memory is alive than the driver's pointers refer to |
| Invariant.ResetWorks | src/common.c:194-229 | After common_reset the driver holds nothing, exactly its blocks left the ledger, and all globals are back to zero |
| Invariant.LoadWorks | src/common.c:298-375 | A load keeps the invariant on every path; what nobody refers to is unchanged unless it is a retry, and then contains the old stack |
| Outcomes.StopEnds | src/common.c:470-522 | A running VMM: a stop ends at the first step that is due and fails, from the last processor down: none gives BF_SUCCESS, LOADED, counter 0; a STOP answer gives ENTRY_ERROR_VMM_STOP_FAILED, RUNNING and the counter that processor had; a switch or a FINI gives its code and CORRUPT; with the requests and launched processors of each |
| Outcomes.StartEnds | src/common.c:412-468 | A loaded VMM: a start ends at the first step that is due and fails: none, a START answer (counted, no rollback), or a switch or INIT on processor j, after which the stop of the processors below j ends where its own answers say |
| Outcomes.LoadEnds | src/common.c:298-401 | An unloaded driver with modules: a load that fails before the TLS block is announced leaves nothing behind, one that fails on a page of the TLS block leaves everything and stays UNLOADED, and it succeeds if and only if every allocation, loader call, INIT, segment and page is answered with success |
| Outcomes.PrepareEnds | src/common.c:316-345 | The result of a load up to INIT is that of its first step that fails; if none does the new pointers are those the allocator and the loader gave |
| Outcomes.UnloadEnds | src/common.c:377-410 | A loaded VMM: an unload leaves nothing behind if its FINI gets through, and otherwise reports BF_ERROR_VMM_CORRUPTED and ends CORRUPT |
| Outcomes.FinishEnds | src/common.c:237-263 | The status and counter common_fini ends with, and its result, from every state and for all answers |
| Outcomes.DumpEnds | src/common.c:525-543 | A dump asks for the virtual processor it was given, returns what call_vmm is told, and changes nothing |
| Outcomes.AddEnds | src/common.c:266-296 | An add that goes ahead puts the file at the end of the table and changes nothing else |
| Outcomes.AnsweredAtOnce | src/common.c:266-543 | Which calls do nothing in which state, and the code each returns |
| Runs.RollbackCompletes | src/common.c:432-467 | A start that fails before the START vmcall of processor j is undone completely if and only if every step of stopping the processors below j gets through, and then the requests are INIT,START for 0..j-1 and their mirror image; RUNNING if and only if a STOP is refused, CORRUPT if and only if a switch or FINI fails |
| Runs.RefusedStopResumes | src/common.c:489-516 | A stop whose STOP vmcall is refused on processor k leaves the VMM running with counter k+1; a later stop that gets through completes it, with the requests of one uninterrupted stop |
| Runs.RollbackIsLifo | src/common.c:432-467 | A start that fails before a vmcall and rolls back emits INIT,START for 0..k-1 and then the exact mirror image, ending LOADED with counter 0 |
| Runs.DownMirrorsUp | src/common.c:489-516 | Stopping n processors is the mirror image of starting them, each event undone in opposite order |
| Runs.StopIsResumable | src/common.c:489-516 | Any run during which the VMM keeps running (refused stops, any other calls) and at whose end it is stopped, loaded or unloaded, emitted exactly the STOP/FINI events of one uninterrupted stop; one that ends running or corrupt emitted the part of it up to the processor it stopped at |
| Runs.DownIsDistinct | src/common.c:489-516 | One uninterrupted stop stops and finalises no processor twice |
| History.EveryProcessorIsInOrder | src/common.c:412-522 | Over every run and on every processor the successful requests follow INIT, START, STOP, FINI (INIT may repeat and START may be missing, after a refused START), the last one is the one status and counter imply, and the processor is inside the VMM exactly when it was START |
| History.NothingTwice | src/common.c:412-522 | Over every run, between two successful START, STOP or FINI requests of the same kind on a processor there is an INIT of that processor |
| Gaps.StartLeavesGap | src/common.c:439-467 | A start leaves a processor counted and not launched if and only if some START vmcall is answered with a non-zero code, or its rollback ends CORRUPT between a STOP and its FINI; a refusal on processor j leaves j + 1 counted, [0,j) launched, and RUNNING unless j is 0 |
| Gaps.CountedAreLaunched | src/common.c:447-452 | Over every run the counted processors are the launched ones, unless the last start was refused and no processor was stopped since, or the VMM is CORRUPT because a STOP was accepted and its FINI failed; and exactly then they are not |
| Gaps.GapOnlyAfterRefusedStart | src/common.c:447-452 | At the end of any run, only a start that returns ENTRY_ERROR_VMM_START_FAILED opens a gap, or a call that ends CORRUPT between a STOP and its FINI |
| Witnesses.RefusedStartLeavesGap | src/common.c:447-452 | A concrete run (add, load, start on two processors of which the second refuses) that ends RUNNING with two processors counted and only processor 0 launched |
| Runs.StartLaunchesAll | src/common.c:432-460 | With n processors throughout, a successful start from LOADED launches exactly [0,n) |
| Runs.CorruptIsAbsorbing | src/common.c:377-410 | CORRUPT is never left by any calls; in it nothing is freed, no global changes, and no per-processor request is made |
| Finalisation.FiniBeforeFree | src/common.c:327-401 | Over every run: UNLOADED exactly while the VMM is not initialised, in every state of the run, if and only if no load fails after its INIT was accepted; then no block is given back while the VMM is initialised |
| Finalisation.IoFiniBeforeFree | src/arch/linux/entry.c:178-198 | Over every run of ioctls and reboots: no block of the driver is given back while the VMM is initialised, if and only if no load fails after its INIT was accepted |
| Witnesses.UnloadPullsMemory | src/common.c:361-362 | A concrete run (add, load refused on a TLS page, unload) after which the VMM is initialised and its memory is gone |
| Runs.FiniOutcome | src/common.c:237-263 | common_fini never ends LOADED, reports BF_ERROR_VMM_CORRUPTED exactly when it ends CORRUPT, ends RUNNING exactly after a refused stop, and otherwise holds nothing |
| Runs.AllAdded | src/common.c:266-296 | From boot any list of at most MAX_NUM_MODULES files with an address and a size is added, every call successful, and the table is that list in order |
| Runs.LifeCycleSucceeds | src/common.c:265-522 | From boot, when nothing is refused and there is memory for stack and TLS block, every call of add (any modules that fit), load, start, stop, unload returns BF_SUCCESS |
| Runs.RoundTrip | src/common.c:265-522 | Any number of adds, then load, start, stop, unload, all successful, restores the globals and the ledger; the processor events are a start followed by its mirror image |
| Descriptors.LoadDelivers | src/common.c:347-366 | A successful load delivers exactly the announcement (each page of each segment in order, then the TLS pages); a refused one a prefix of it, and returns the code of that refusal |
| Descriptors.RangeDelivers | src/common.c:167-178 | The page loop delivers lo, lo+P, ... up to hi, each once and ascending, or a prefix up to the first refusal |
| Pages.SegmentPageCount | src/common.c:162-168 | A segment is announced on (s+memsz)/P - s/P + 1 pages |
| Pages.SegmentIsCovered | src/common.c:162-168 | Every byte of a segment lies on an announced page with the segment's permission |
| Pages.SegmentPagesAreTight | src/common.c:162-168 | An announced page holds a byte of the segment, except the last one when the segment ends exactly at its start |
| Pages.DeliveredAreMapped | src/common.c:118-133 | Every descriptor any load delivers, complete or not, names the physical address the platform gives for its virtual one (the same one on UEFI) |
| Pages.WritableXorExecutable | src/common.c:151-178 | No page is announced both writable and executable if and only if differently permissioned ranges end and start on different pages, ends inclusive |
| Pages.LoadedPagesWritableXorExecutable | src/common.c:347-364 | The same exact condition for everything a successful load delivers, TLS pages included |
| Pages.LoadedSegmentsAreDelivered | src/common.c:347-352 | After a successful load every byte of every segment of every module lies on a page delivered with the segment's permission |
| Pages.BytesApartIsNotEnough | src/common.c:162-168 | Two segments whose bytes are on different pages and that share an announced page |
| Witnesses.LoadDeliversMixedPage | src/common.c:347-364 | A concrete run (add, load) of a module with two segments whose bytes are on different pages, which delivers a page both executable and writable |
| Witnesses.LoadDeliversEmptyPage | src/common.c:354-364 | A concrete run (add, load) that delivers a page for the TLS block on which no byte of the block lies |
| Pages.PageLoopEnds | src/common.c:167 | The 64-bit loop reaches an address above hi if and only if hi plus one page does not wrap |
| Words.MaskIsFloor | src/common.c:164-165 | x & ~(p - 1) on 64-bit words is x - x % p for every power of two p |
| Addresses.StackWindow | src/common.c:61-69 | For every base that does not wrap, the aligned window ending at g_stack_top lies inside the allocation |
| Addresses.ContextInWindow | src/common.c:94-107 | The thread context call_vmm writes and the stack pointer it gives to _start are in that window if and only if sizeof(context) + 2 <= STACK_SIZE |
| TlsSlots.SlotLayout | src/common.c:101-104 | A processor's slot is inside a TLS block for n processors if and only if its number is below n; slots do not overlap |
| TlsSlots.TlsIsDelivered | src/common.c:354-364 | After a successful load every byte of the TLS block lies on a page delivered as R and W, for any base |
| TlsSlots.TlsPagesAreTight | src/common.c:354-364 | A page announced for the TLS block of a successful load holds no byte of it exactly when it is the page at the end of a page-aligned block (or the block is empty) |
| TlsSlots.EveryContextHasItsSlot | src/common.c:101-104 | Over every run with a constant processor count, each thread context points to its processor's slot inside a live TLS block |
| Tables.EveryIoRunIsSafe | src/arch/linux/entry.c:311-350 | Over every serialised run of ioctls and reboots: driver invariant, exact ledger, agreeing tables |
| Tables.IoLedgerIsExact | src/arch/linux/entry.c:79-198 | At every ioctl boundary live memory is exactly module buffers, images, stack and TLS block, each once; UNLOADED holds only module buffers |
| Tables.IoctlUnloadWorks | src/arch/linux/entry.c:150-176 | An ioctl unload frees every module buffer even when the driver refuses; a successful one leaves nothing allocated, whatever went before |
| Tables.IoFreesOnlyLiveBlocks | src/arch/linux/entry.c:150-176 | Over every run of ioctls and reboots: a freed block was alive with exactly that address and length, the driver's own with no processor inside the VMM |
| Tables.LoaderReadsLiveBuffers | src/common.c:330 | After any run of ioctls and reboots, when a load reaches bfelf_load every file of g_modules is alive |
| Tables.NeverTooManyModules | src/common.c:283-285 | After any run of ioctls and reboots, BF_ERROR_MAX_MODULES_REACHED cannot come back to the ioctl layer: while its own table has room, so has the driver's |
| Tables.IoctlAddModuleWorks | src/arch/linux/entry.c:78-126 | Adding keeps the tables and the ledger in step on success, copy failure and refusal |
| Tables.IoctlLoadWorks | src/arch/linux/entry.c:178-198 | The ioctl load repairs the missing rollback of the driver |
| IoOutcomes.IoAddEnds | src/arch/linux/entry.c:78-126 | IOCTL_ADD_MODULE works if and only if there is room and memory, the copy is complete, the driver is unloaded and the length is not 0; then both tables end in the new module, otherwise nothing is changed or stays allocated |
| IoOutcomes.IoLoadEnds | src/arch/linux/entry.c:178-198 | IOCTL_LOAD_VMM reports what the driver does; a failed one empties pmodules and, from UNLOADED, leaves nothing at all |
| IoOutcomes.IoUnloadEnds | src/arch/linux/entry.c:150-176 | IOCTL_UNLOAD_VMM works if and only if the driver is unloaded, or loaded and FINI gets through; pmodules is empty in any case |
| IoOutcomes.IoStartEnds | src/arch/linux/entry.c:221-241 | IOCTL_START_VMM reports what the driver does; after a failed start the VMM is stopped, and ends LOADED with nothing inside if and only if every step of that stop gets through |
| IoOutcomes.IoStopEnds | src/arch/linux/entry.c:200-219 | IOCTL_STOP_VMM reports what the driver does |
| IoOutcomes.IoDumpEnds | src/arch/linux/entry.c:243-266 | IOCTL_DUMP_VMM names the virtual processor set before, and works if and only if there is a VMM, it answers, and the copy is complete |
| IoOutcomes.PlainEnds | src/arch/linux/entry.c:268-350 | The commands that copy one variable, and unknown commands |
| IoOutcomes.RebootEnds | src/arch/linux/entry.c:371-381 | The reboot notifier runs common_fini and leaves the ioctl layer alone |
| Witnesses.RefusedStartIsRepaired | src/arch/linux/entry.c:221-241 | A concrete run of ioctls whose start is refused on the second processor, with processor 0 inside, and whose repair ends LOADED with nothing inside |
| Tables.ExitLeavesBuffers | src/arch/linux/entry.c:409-419 | An exit leaves nothing allocated if and only if the unload goes through and the table of module buffers is empty; when it goes through exactly the module buffers stay |
| Tables.FinishUnloads | src/common.c:237-263 | common_fini ends UNLOADED if and only if every processor switch, STOP answer, argument setup and FINI answer still due is a success, and the entry point is known |
| Witnesses.ExitLeaksModule | src/arch/linux/entry.c:409-419 | A concrete run (add a module, exit) after which its buffer is alive |
| UefiLedger.PagesExceedLength | src/arch/uefi/Platform.c:24-27 | A request gets more bytes than it asks for, by at most one page |
| UefiLedger.PagesAreConserved | src/arch/uefi/Platform.c:70-101 | Over any run, pages handed out equal pages given back plus pages still held, if and only if no load was a retry |
| UefiLedger.CallerKeepsProcessor | src/arch/uefi/Platform.c:200-258 | When processor switches succeed, a successful start or stop leaves the caller on its processor, for any processor count |
| UefiLedger.StopRestoresCpu | src/common.c:489-513 | The same for the stop loop; a refused stop leaves the caller on the refusing processor |
| UefiLedger.RefusedStartStaysOnProcessor | src/common.c:447-452 | A start refused on a processor leaves the caller there, on every platform |
| UefiRuns.RunOnUefi | src/arch/uefi/Platform.c:20-101 | Driver, platform layer and firmware together, over every run: the driver computes the run of the model, the firmware's processor is the machine's, and the pages in the firmware's table are those handed out and not given back, and its ranges are the blocks the driver holds exactly when no load was a retry |
| UefiRuns.PerformAll | src/common.c:237-543 | Any sequence of calls of the program, on any platform, computes the run of the model |
| UefiRuns.StartOrStop | src/arch/uefi/Platform.c:200-258 | When processor switches succeed, a successful start or stop leaves the firmware on the processor it was on |
| UefiRuns.UefiPages | src/arch/uefi/Platform.c:70-101 | The ranges of a firmware table that tracks the ledger at the end of a run are exactly the blocks the driver holds, page counts included, if and only if no load was a retry |
| Uefi.PlacedIffAvailable | src/arch/uefi/Platform.c:20-59 | The firmware finds the pages for a request free exactly when the machine's allocator may place it |
| Uefi.FreeAgrees | src/arch/uefi/Platform.c:70-101 | The firmware takes back a block freed with its allocated length, and its table keeps tracking the ledger |
| Uefi.Layer.Alloc | src/arch/uefi/Platform.c:20-59 | Allocates len/4096+1 pages, more bytes than asked for, exactly when the machine allocates, and keeps the firmware's table in step with the ledger; otherwise changes nothing |
| Uefi.Layer.Free | src/arch/uefi/Platform.c:70-101 | The firmware takes the range back and its table stays in step with the ledger |
| Uefi.Layer.SetAffinity | src/arch/uefi/Platform.c:200-241 | Moves exactly when the machine moves and returns the processor it came from; otherwise -1 and no move |
| Uefi.Layer.RestoreAffinity | src/arch/uefi/Platform.c:254-258 | Moves back exactly when the machine does |
| Platform.Platform.BfelfLoad | src/common.c:330 | The loader's allocations of images go through the platform and keep the firmware in step |
| Common.Driver.Reset | src/common.c:194-229 | The loop and the two tests free the held blocks in order and zero the table |
| Common.Driver.AddPages | src/common.c:167-178 | The page loop on wrapping words delivers the specified range |
| Common.Driver.AddMd | src/common.c:141-182 | The segment loop |
| Common.Driver.Load | src/common.c:298-375 | All rollback paths of a load, and the one that has none |
| Common.Driver.StartCpu | src/common.c:439-460 | The body of the start loop: counting before the vmcall, the failure label, the refusal |
| Common.Driver.StopCpu | src/common.c:489-513 | The body of the stop loop |
| Common.Driver.Start | src/common.c:412-468 | The start loop with its failure and refusal exits |
| Common.Driver.Stop | src/common.c:470-522 | The stop loop with its corrupted and refusal exits |
| Common.Driver.Finish | src/common.c:237-263 | common_fini |
| Common.Driver.Perform | src/common.c:237-543 | Any call of the interface computes the step of the model and keeps the invariant |
| Entry.Device.AddModule | src/arch/linux/entry.c:78-126 | The buffer is freed again on a failed copy or a refusal |
| Entry.Device.UnloadVmm | src/arch/linux/entry.c:150-176 | The driver's unload, then the table is freed and cleared whatever the driver answered |
| Entry.Device.FreeModules | src/arch/linux/entry.c:164-169 | The freeing loop over pmodules and the clearing of the table |
| Entry.Device.Handle | src/arch/linux/entry.c:311-381 | The ioctl dispatcher and the reboot notifier |

## Left out

- ELF parsing and relocation: the loader is an assumption about what it may do to the module table.
- Concurrency between ioctls: neither driver takes a lock; the ioctls of a run are serialised.
- src/arch/windows/queue.c: the same control flow as the Linux ioctl layer, with two differences: copies do not fail, and module buffers allocated by platform_alloc_rw are given back by platform_free_rwe (src/arch/windows/queue.c:105), which on Windows is the same pool release (src/arch/windows/platform.c:78-103); the ledger of the model would tell the two kinds apart.
- The contents of memory: memset, memcpy and the pages behind user pointers; a user copy only succeeds or fails.
- platform_start and platform_stop (a shadow register on Linux), preemption counting, and debug output have no effect the model can see.
- g_info and g_loader: passed through to the ELF loader and the VMM.
- common_init is common_reset on zeroed globals; a model run starts from the state after it.
- Device registration, Windows request plumbing, processor preparation, the UEFI boot script and the assembly files.
- Runs.RoundTrip: the two size variables g_tls_size and g_stack_size are not restored, because common_reset does not touch them.
- platform_num_cpus on UEFI: the processor count is an answer of the outside (0 when the firmware service fails), not computed from the firmware object.
- TlsSlots.EveryContextHasItsSlot: assumes a constant processor count and a firmware that can name the current processor, because a slot of a processor that appears after the load is outside the block (TlsSlots.SlotLayout).
