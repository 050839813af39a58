# Systems programs, proved

A Dafny model of the parts of this repository that carry state over time, with
proofs about every run of them:

- **the key/value store** (`apue.2e/db/db.c`): an index file of hash chains and a
  free list in six-column decimal pointers, and a data file, rewritten in place
  by any number of processes under `fcntl` byte locks;
- **the semaphore library** (`apue.2e/lib/semaph.c`): creation, initialisation and
  removal of a three-member set without races, whoever crashes;
- **the dining philosophers** (`Exp_4`), whose forks are lock files;
- **the print spooler's queue** (`apue.2e/ipp/printd.c`);
- **the tree walks** (`apue.2e/file/ftw4.c`, `Exp_2`'s `myfind.c`) through one path
  buffer;
- **the dialler daemon** (`apue.2e/calld`): waiting for a string, choosing a line,
  the table of line locks;
- **descriptor passing** (`apue.2e/lib/sendfd.c`, `senderr.c`, `recvfd.c`).

`dafny verify dfyconfig.toml` checks everything.

## How the pieces fit

**The database** is modelled twice, and the two are tied together.

*As a system of processes* (`DbMachine`). A state is the bytes of the two files,
one program point with its variables per process, the set of held locks, and a
history. One step is one system call together with the private computation up
to the next. A process knows only bytes: it reads six or ten of them, decodes
them as `atol` and `strchr` do, and writes bytes. `DbWorld` says what bytes
represent (`Rep`): pointer cells, index records tiling the index file after the
829-byte header, values tiling the data file. `DbInv` is the invariant: where
every record is (on a chain, on the free list, in the hands of a process), what
each chain holds while its writer is half way through an update, and which locks
each program point implies. `DbStable` and the `DbStep` files show, one kind of
system call at a time, that the call keeps its own part and disturbs nobody
else's; `DbTheorems` puts them together and concludes that every run is
linearizable. `DbProgress` is about the locks and the ends of the walks,
`DbOwners` about whose each record and value is. `DbResults` tells what calls
answer and wait for without the functions that the system is made of.

*As one handle* (`DbHandle`). The class `Db` is the DB structure; its methods are
`db.c`'s functions with their loops, working on the two files in place. Beside
each method runs, in ghost variables, the system above with one process, so the
invariant and the termination measure are the same ones, and the methods'
contracts are about the map. `DbScan` is what a sequential scan sees, and
`DbExamples` proves the outcome at two inputs for which that is not the database;
`DbSeparator` is why a key may hold no ':'. `DbSchedules` bounds what all
processes together can still do once no new call begins.

A process that reaches `err_dump` or `err_quit` is gone and the kernel drops its
locks; in the history this is a line `Died`. Two of those exits can be reached:
a new index record of impossible length and one past offset 999999. Both are
reached before `db_fetch` can find the new key, and after the old record, if there
was one, has been deleted: a replacement that dies has lost the record. The second
is reached after the new record has been appended: it stays in the file, on no
list, and scans show it.

**The semaphore set** (`Semaph`) is a system of processes that make one kernel
call at a time and may crash anywhere; the kernel's per-process adjustments are
part of the state and are applied, cut off at 0 and at `SEMVMX`, on exit, dropped
by `SETVAL`, and gone with the set on `IPC_RMID`. `SemaphCalls` ties each step to
the kernel's `semop` on the arrays of `semaph.c`. **The philosophers** are a system
of the same form, generalised to any number, with the files and program points also
as arrays changed in place (`LockFiles`). **The spooler** is a queue of values with
its history (`PrintSpool`) and the heap list that implements it (`PrintJobs`).
**The tree walks** are the enumeration of a tree (`TreeWalk`) and the code on its
buffer (`TreeWalker`), which knows where it is only from the path in the buffer;
the kernel is a map from paths, slashes normalised, to what is there, and a
caller's function is any function of all the calls made to it so far. **The
dialler** is the search on values, the code, and the runs of many clients
(`CalldScan`, `CalldServer`, `CalldRuns`).

## Where the code and its comments differ

The model follows the code.

- `semaph.c:115-128`: the comment says that a creator whose set is removed goes
  back and creates it again. One that already sleeps in `semop` gets `EIDRM`, not
  `EINVAL`, and ends in `err_sys` (`SemaphTheorems.OvertakenCreator`,
  `OvertakenReachable`).
- `request.c:68`: "also, cliptr->sysftell is -1" is not so after a missing device
  (`CalldScan.SysftellAtRefusal`); nor are later entries then tried
  (`DevicelessEntry`), although a locked device is passed over.
- `db.c:851-864`: a stored key of blanks only cannot be told from a deleted record
  and is left out of scans (`DbScan.ScanExact`, `DbExamples.BlankKeyIsMissed`); fetch
  and delete find it.
- `db.c:682-689`: the record is written before `_db_writeptr` refuses its offset, so
  a store that ends there is shown by scans although it has not happened
  (`DbScan.AbandonedIsMet`, `DbExamples.AbandonedIsShown`).
- `lock.c:63-75`: `lock_rel` frees the first line of a process number, and `client[]`
  keeps numbers of children and clients that have gone (`CalldRuns.InvNext`,
  `RecycledNumber`).
- `semaph.c:280`: "a user-specified amount" goes into a `short`
  (`SemaphCalls.AmountCut`).
- `ftw4.c:99-100`: an unreadable directory is reported with a trailing slash, which
  stays in the buffer; `myfind.c:205` erases a slash that the starting path came
  with (`TreeWalker.BufferRestored`, `UnreadableDir`, `ErasedSlash`).
- `expectstr.c:8-9`: `exp_read` returns a `size_t`, so its callers' tests for a
  negative result are never true. "return 0 if got it, -1 if not" holds of strings
  that cannot be converted only: a time-out is not noticed (`Expect.Line.ExpectStr`,
  `Silence`, `HalfCame`), and the test of `expect_str` in `ttydial.c:11` does not
  see one either.
- `expectstr.c:89-96`: nothing checks that `inbuf` still has room
  (`Expect.Line.ExpectStr`, `Babble`).
- `expectstr.c:78-81`: an empty expect string, unlike `""`, waits for a NUL byte.

## Model

| member | source | states |
|---|---|---|
| DbTheorems.Linearizable | apue.2e/db/db.c:277-296 | for any number of processes, each with its own handle, doing any fetches, stores and deletes in any interleaving of single system calls on the raw bytes of the two files, every call returns what one atomic map gives at the point where the call lets go of its chain, and the map goes on from there, beginning empty: a fetch returns the value or NULL; a delete takes the key away and returns 0, or returns -1; a store returns 1 and does nothing for DB_INSERT of a key that is there, -1 and nothing for DB_REPLACE of one that is not or an unknown flag, and else puts the pair in the map and returns 0; one that dies leaves its key absent |
| DbResults.DeathsAreStores | apue.2e/db/db.c:576-584 | in every run only stores die in the middle of a call |
| DbResults.CallBegins | apue.2e/db/db.c:639-660 | the call in progress is the one asked for; an unknown flag is answered with -1 at once, and a value of fewer than 1 or more than 1023 bytes ends the process, before any system call |
| DbResults.ChainReadyIff | apue.2e/db/db.c:270-283 | a call has to wait for its chain if and only if another call is in progress past its own first lock on a key of the same hash and one of the two is no fetch: fetches share a chain, and calls on different chains never wait for each other there |
| DbResults.ReadChecks | apue.2e/db/db.c:366-392 | a walk goes on from an index record if and only if its ten first bytes are there with a length from 6 to 1024, and then all of a record; a value is returned if and only if all of it is there with its newline |
| DbProgress.OneLinePerCall | apue.2e/db/db.c:235-252 | a call leaves exactly one line in the history that Linearizable speaks of, its own call with its own result (or its death), by the system call that ends it; so the order of the lines respects calls that do not overlap |
| DbTheorems.InvNext | apue.2e/db/db.c:440-525 | each of the 34 kinds of system call, by any process while the others are anywhere, keeps the whole invariant (files decode, 138 lists acyclic and owned, each chain holds its part of the map, locks held match program points), and the process survives its consistency checks except, exactly, where a new index record has an impossible length or lies past the largest pointer |
| DbTheorems.RunInv | apue.2e/db/db.c:233-301 | the invariant holds in every state of every run |
| DbTheorems.InvInit | apue.2e/db/db.c:146-160 | the 829 bytes that db_open writes are 138 empty lists and represent the empty map |
| DbOwners.QuietPartition | apue.2e/db/db.c:464-525 | whenever no call is in progress, whoever has died: the index file after its header is a run of well-formed records, each on exactly one list (blank ones on the free list, others on the chain of their hash) unless it starts past 999999, and then on none; every list ends in 0 without repeats, the data file is tiled by lines which are the records' values as long as nobody has died, and the chains hold exactly the map |
| DbOwners.QuietRecord | apue.2e/db/db.c:626-627 | a record is abandoned, on no list, if and only if it starts past the largest pointer |
| DbOwners.RunOwners | apue.2e/db/db.c:482-525 | in every state of every run each record and each value has one owner: a list, a process in the middle of a call, or (after a death) nobody; a record that nobody has starts past 999999 |
| DbProgress.ReuseSafe | apue.2e/db/db.c:763-806 | when a process is about to take a record off the free list, no chain followed from its head through the bytes as they are then comes to that record: unlinking is complete before the free list is unlocked |
| DbProgress.NoDeadlock | apue.2e/db/db.c:270-283 | in no state of any run are all processes that are in a call waiting for locks |
| DbProgress.WaitOrder | apue.2e/db/db.c:542-558 | a process that waits holds nothing and wants its chain byte, or holds exactly its chain byte and wants the free-list byte, the index tail or the data file, holding none of those three |
| DbProgress.RangesDisjoint | apue.2e/db/db.c:592-613 | two held byte ranges overlap if and only if they are the same resource, and if two processes hold it both only read |
| DbProgress.StepNearer | apue.2e/db/db.c:284-296 | every system call of a process brings its call strictly nearer to its end (stage, then records left on the list it follows), although reuse makes offsets go up and down along a chain |
| DbProgress.OthersNearer | apue.2e/db/db.c:284-296 | no system call of another process takes it further from its end |
| DbProgress.SoloFinishes | apue.2e/db/db.c:763-797 | from every reachable state a call that nobody interferes with comes to its end: both list walks stop |
| DbSchedules.SchedulesEnd | apue.2e/db/db.c:233-301 | from any state of any run, once no new call begins, every schedule of system calls of all processes ends after a number of them that the state bounds, and where nobody can make another every process has returned or died |
| DbScan.ScanMeets | apue.2e/db/db.c:838-877 | once no call is in progress, whatever processes have worked on the files and died: a scan meets, in file order and each once, the stored pairs whose key is not all blanks and the records with such a key that were abandoned past 999999 |
| DbScan.ScanExact | apue.2e/db/db.c:838-877 | in every such state a scan shows exactly the map if and only if no stored key is all blanks and no record with a key that is not starts past 999999 |
| DbScan.AbandonedIsMet | apue.2e/db/db.c:682-689 | from every state of every run in which a store has appended its record past 999999, the store ends with its key absent, and a scan of the files as it leaves them meets that key |
| DbExamples.AbandonedIsShown | apue.2e/db/db.c:621-633 | one such run: a thousand long keys at most are stored, the store of the next ends the process, and another that opens the files fetches nothing for the key while its scan shows it |
| DbExamples.BlankKeyIsMissed | apue.2e/db/db.c:866-872 | a stored key of one blank is fetched, and a scan ends without it |
| DbScan.RemainingExact | apue.2e/db/db.c:851-868 | stepping from record to record by length meets every index record with a non-blank key exactly once, in file order, and nothing else |
| DbScan.SeenRecord | apue.2e/db/db.c:866-872 | a record with a non-blank key is live, on the chain of its hash with its key mapping to its value, if it starts within reach of a pointer; otherwise it is on no list and some process has died |
| DbStepRead.StepWalk2 | apue.2e/db/db.c:286-296 | the comparison of a record's key, and the move to the next record, keep the invariant: what has been passed does not have the key |
| DbStepDelete.StepOverWrite | apue.2e/db/db.c:734-740 | overwriting a value of the same length changes that value and no other, and the chain then holds the new map |
| DbStepDelete.StepDWriteDat | apue.2e/db/db.c:489-489 | blanking the value of a record that is being deleted leaves every other chain and value as it was |
| DbResults.BlankedValue | apue.2e/db/db.c:476-489 | what a deletion writes over a value is as long as the value: blanks and the newline |
| DbStepDelete.StepDWriteIdx | apue.2e/db/db.c:509 | the blanked index record has exactly the length of the old one and its pointer now leads into the free list, while its chain is still to be repaired |
| DbStepDelete.StepDWriteFree | apue.2e/db/db.c:514 | the record becomes the head of the free list |
| DbStepDelete.StepDUnlink | apue.2e/db/db.c:522 | rewriting the pointer that led to the record completes its removal from the chain, the head or the middle alike |
| DbStepStore.StepFTake | apue.2e/db/db.c:791 | the record of exactly the wanted sizes leaves the free list, from its head or its middle, and belongs to the process |
| DbStepStore.StepRWriteIdx | apue.2e/db/db.c:697-698 | writing key and value over a record taken from the free list keeps its length, so its neighbours stay where they are |
| DbStepStore.StepAWriteIdx | apue.2e/db/db.c:682-683 | appending an index record extends the run of records |
| DbStepStore.StepLinkHead | apue.2e/db/db.c:689-699 | linking the new record at the head of its chain makes the chain hold the new map |
| DbStepEnd.StepUnlockChain | apue.2e/db/db.c:744-747 | when the chain is unlocked the map takes the effect of the call and the result about to be returned is the one the map gives |
| DbStepEnd.DieStore | apue.2e/db/db.c:576-584 | a store that dies leaves its key absent and everything else as it was |
| DbFormat.PtrRoundTrip | apue.2e/db/db.c:324-334 | a pointer 0..999999 written in six columns is read back as itself |
| DbFormat.BodyRoundTrip | apue.2e/db/db.c:359-417 | key, offset and length of any valid record (key without NUL and separator) come back from its formatted body |
| DbFormat.EncParts | apue.2e/db/db.c:568-585 | the three reads of a written index record give its pointer, its length and its record back |
| DbSeparator.SeparatorLost | apue.2e/db/db.c:392-416 | a record formatted from C strings is read back if and only if its key has no ':', wherever in the key it is, and the length of its value is from 1 to 1024; otherwise it is refused |
| DbSeparator.Unfinished | apue.2e/db/db.c:392-408 | a record without its newline, or with fewer than two separators, is refused |
| DbSeparator.SeparatorKills | apue.2e/db/db.c:399-410 | once a record of such a key is linked at the head of a chain, the third system call of the next walk over that chain ends its process, whoever it is and whatever key it looks for |
| DbHandle.Db.HashKey | apue.2e/db/db.c:306-316 | the loop over the key, with signed characters and wrapping around at 64 bits at every addition, computes the sum of the characters times their positions modulo 2^64 and then 137 |
| DbFormat.AsciiHash | apue.2e/db/db.c:306-316 | for every key of up to 1024 ASCII characters the wrap-around plays no part |
| DbFormat.HashAppend | apue.2e/db/db.c:306-316 | one more character adds itself, as a signed number, times its position; the chain is that sum modulo 2^64 and then 137 |
| DbFormat.HashExample | apue.2e/db/db.c:306-316 | the key ab is on chain 19 |
| Bytes.AtolOfPad | apue.2e/db/db.c:628-630 | atol undoes right-justified formatting at any width |
| Bytes.AtolParts | apue.2e/db/db.c:332-334 | atol heeds a sign and stops at what is no digit |
| Bytes.PadWidth | apue.2e/db/db.c:628-630 | numerals within the limits fill their columns exactly |
| Bytes.DigitsStep | apue.2e/db/db.c:628-630 | one more decimal place is one more character |
| Bytes.PadShape | apue.2e/db/db.c:628-630 | a numeral that is too short is filled up on the left with blanks, one that is too long stays as it is |
| DbFormat.RecordExample | apue.2e/db/db.c:568-585 | the bytes of the record of the key Alpha with a first value of five characters |
| Bytes.FindIff | apue.2e/db/db.c:399-408 | strchr finds a separator if and only if there is one before the NUL, and then the first |
| DbWorld.ReadCell | apue.2e/db/db.c:324-334 | reading six bytes at any pointer cell of a represented file gives that cell's value |
| DbWorld.ReadRec | apue.2e/db/db.c:344-418 | the two reads of _db_readidx at any record's offset give that record |
| DbWorld.SetPtrRep | apue.2e/db/db.c:621-633 | a pointer rewritten in place changes that pointer and nothing else of what the file represents |
| DbWorld.SetRecRep | apue.2e/db/db.c:568-614 | an index record rewritten in place at the same length changes that record and nothing else |
| DbWorld.AddRecRep | apue.2e/db/db.c:592-613 | an appended index record is added to what the file represents |
| DbWorld.SetDataRep | apue.2e/db/db.c:532-560 | a value rewritten in place at the same length leaves every other value as it was |
| DbWorld.AddDataRep | apue.2e/db/db.c:542-558 | an appended value leaves every other value as it was |
| DbHandle.Db.constructor | apue.2e/db/db.c:135-165 | a created database is valid, empty and rewound |
| DbHandle.Db.Open | apue.2e/db/db.c:120-127 | files in which no call is in progress, as other processes left them, some of them by dying, are a valid handle on the same map |
| DbHandle.Db.ReadPtr | apue.2e/db/db.c:324-334 | what is read at any pointer cell is its value in what the file represents |
| DbHandle.Db.ReadIdx | apue.2e/db/db.c:344-418 | the fields of the DB structure become those of the record at the offset; end of file only at the end |
| DbHandle.Db.ReadDat | apue.2e/db/db.c:425-435 | the value is the record's bytes without the newline |
| DbHandle.Db.WritePtr | apue.2e/db/db.c:621-633 | the write is refused exactly past 999999; otherwise the pointer is read back from its place as itself, the file keeps its length, and no other byte changes |
| DbHandle.Db.WriteIdx | apue.2e/db/db.c:568-614 | the write is refused exactly for a pointer or a length out of range; otherwise the record, in place of one of its length or at the end, is read back by the two reads of _db_readidx with its pointer, and no other byte changes |
| DbHandle.Db.WriteDat | apue.2e/db/db.c:532-560 | the value and its newline, in place of one of their length or at the end, are read back from their place, and no other byte changes |
| DbHandle.Db.FindAndLock | apue.2e/db/db.c:260-301 | the key is found if and only if the map has it, and the DB fields are then those of its record and of the pointer to it |
| DbHandle.Db.DoDelete | apue.2e/db/db.c:464-525 | one more free record, no other index record, both files of the same size, and the process stands where a store or delete goes on |
| DbHandle.Db.FindFree | apue.2e/db/db.c:755-807 | a record is taken if and only if one of exactly these sizes is free |
| DbHandle.Db.AppendRecord | apue.2e/db/db.c:682-689 | the record is appended and linked unless, exactly, its length or offset is out of range; then the process ends with the key absent |
| DbHandle.Db.ReuseRecord | apue.2e/db/db.c:697-699 | a taken record carries the new key and value and is linked, no file growing |
| DbHandle.Db.Fetch | apue.2e/db/db.c:233-252 | the value stored for the key, or NULL if there is none; nothing changes |
| DbHandle.Db.Delete | apue.2e/db/db.c:440-455 | 0 and the key is gone if it was there, else -1; the counters keep the same conservation of live, free and physical records |
| DbHandle.Db.StoreNew | apue.2e/db/db.c:663-702 | when the key is not there: -1 for DB_REPLACE, else reuse of an exact fit or an append, ready to be seen by all when the chain is unlocked; which counter moves says which |
| DbHandle.Db.StoreExisting | apue.2e/db/db.c:703-742 | when the key is there: 1 for DB_INSERT, else the value overwritten at the same length or deleted and appended; the process ends exactly if that append is impossible |
| DbHandle.Db.Store | apue.2e/db/db.c:639-748 | 1 and the map as it was for DB_INSERT of a key that is there; -1 and the map as it was for DB_REPLACE of one that is not and for an unknown flag; else 0 and the map with the pair; the process ends if and only if the value's length is out of range, or a record must be appended (no free record of exactly these sizes for a new key, another length for an old one) and its length or offset is out of range, the key then being absent, and its record, if it got that far, left in the file past 999999; which of the five counters moves says what became of the lists, a new key reusing a record if and only if one fits exactly; and Valid keeps live = stor1 + stor2 - delok, free = delok + stor3 - stor2 and physical = stor1 + stor3, from what was there when the database was opened |
| DbHandle.Db.Rewind | apue.2e/db/db.c:815-829 | the scan stands at the first record |
| DbHandle.Db.NextRec | apue.2e/db/db.c:838-877 | the key and the value of the next record with a non-blank key, whoever wrote it and whether or not the map has it, or NULL at the end of the file |
| DbHandle.Db.SkipBlank | apue.2e/db/db.c:851-864 | the loop over records of blanks stops at the first with another key, or at the end of the file |
| DbHandle.Db.Scan | apue.2e/db/db.c:815-877 | db_rewind and then db_nextrec until NULL give the pairs that ScanMeets speaks of, in that order; they are the map if and only if the condition of ScanExact holds |
| DbSingle.GoDelete | apue.2e/db/db.c:464-525 | one process alone: its seven system calls of a deletion end with the record free and the chain without it |
| DbSingle.GoStore | apue.2e/db/db.c:663-741 | one process alone: each step of a store has exactly the effect on files, lists and map that the handle relies on |
| SemaphTheorems.Conservation | apue.2e/lib/semaph.c:49-79 | in every state of every run with fewer than BIGCOUNT users, whoever crashes where: the counter plus the undo credits of the users is BIGCOUNT from initialisation on, the lock is 0 or 1 with exactly one holder when 1, nobody has the semaphore open before it is initialised, and member 0 plus its undo credits is its initial value, up to undoing cut off at 0 and at SEMVMX |
| SemaphInv.InvNext | apue.2e/lib/semaph.c:90-162 | every kernel call of every process, and every crash with its SEM_UNDO adjustments, keeps the invariant behind these results |
| SemaphTheorems.RunInv | apue.2e/lib/semaph.c:90-253 | that invariant holds in every state of every such run |
| SemaphTheorems.CreateReturnsInitialised | apue.2e/lib/semaph.c:155-162 | sem_create returns only when both members have been set; the first to return finds member 0 at its initial value |
| SemaphTheorems.NoSetAfterReturn | apue.2e/lib/semaph.c:138-153 | no SETVAL is about to happen once a process has returned from sem_create on the set, also when an initialiser crashed half way and another took over |
| SemaphTheorems.RemoveOnlyUnused | apue.2e/lib/semaph.c:223-253 | sem_close is about to remove the set only when no process has it open |
| SemaphTheorems.NoDeadlock | apue.2e/lib/semaph.c:49-75 | while a process is inside sem_create or sem_close, some process can make a call that gets it further |
| SemaphTheorems.RoomByNumber | apue.2e/lib/semaph.c:43 | with at most BIGCOUNT processes in all, the condition on the users holds whenever one that is not a user looks |
| SemaphTheorems.OverwrittenIff | apue.2e/lib/semaph.c:135-147 | the bound is exact: a creator goes on to initialise a set that is in use if and only if BIGCOUNT processes have it open |
| SemaphTheorems.OverwriteReachable | apue.2e/lib/semaph.c:43 | and with more than BIGCOUNT processes that state is reached without a crash |
| SemaphTheorems.EndsIff | apue.2e/lib/semaph.c:125-291 | within the bound, the step of any process ends one that does not crash if and only if it is its own SETVAL with a value that the kernel refuses, or its own operation whose amount, cut to 16 bits, is 0, takes the value above SEMVMX, or takes it where the kernel could not undo it, or it removes the set under it while it sleeps in sem_create; every other err_sys, and the err_dump for a counter above BIGCOUNT, is never reached |
| SemaphCalls.SemopCalls | apue.2e/lib/semaph.c:45-89 | each semop of the library, written as the array that semaph.c declares for it, has from every state of the invariant the effect that the kernel's semop has for that array: all operations or none, the members and the caller's adjustments changed together, asleep where one cannot be done yet |
| SemaphCalls.OpEffect | apue.2e/lib/semaph.c:283-290 | sem_op, sem_wait and sem_signal: the amount, cut to 16 bits, is added to the value and taken from the caller's adjustment and nothing else changes; everything stays as it is while the value would be negative; 0, a value above 32767 or an adjustment out of the kernel's range end the caller |
| SemaphCalls.AmountCut | apue.2e/lib/semaph.c:283-290 | so an amount that does not fit 16 bits is not what is added: 65537 adds 1, 65536 ends the caller |
| SemaphCalls.ExitUndoes | apue.2e/lib/semaph.c:76-79 | a process that exits or crashes anywhere has its adjustments added to the three members, each kept between 0 and 32767, and nothing else changes |
| SemaphCalls.SetvalEffect | apue.2e/lib/semaph.c:135-153 | GETVAL decides whether the set is initialised, and the two SETVALs give member 0 the initial value and member 1 BIGCOUNT, dropping everybody's adjustments of that member and nothing else |
| SemaphCalls.CallsBegin | apue.2e/lib/semaph.c:90-102 | whoever is not inside may call sem_create with any initial value, and whoever has returned from it sem_close |
| SemaphCalls.GetMakes | apue.2e/lib/semaph.c:105-107 | semget finds the set or makes one of zeros |
| SemaphCalls.InitialValue | apue.2e/lib/semaph.c:143-148 | over all runs: member 0 is set to what the process that sets it has given to its sem_create, and the initial value that Conservation speaks of is that one |
| SemaphCalls.LastCloseRemoves | apue.2e/lib/semaph.c:243-253 | in every run sem_close goes on to remove the set if and only if nobody else has it open, and the removal removes it |
| SemaphTheorems.UndoRefused | apue.2e/lib/semaph.c:283-290 | a crash-free run in which a process is refused a wait although the value is positive, because its adjustment would leave the kernel's range |
| SemaphTheorems.OvertakenCreator | apue.2e/lib/semaph.c:115-128 | in every run, a creator overtaken by the removal of the set goes back to semget if and only if it was not yet asleep in semop; asleep it gets EIDRM and ends, contrary to the comment |
| SemaphTheorems.OvertakenReachable | apue.2e/lib/semaph.c:115-128 | and a run of any two or more processes reaches that: one about to remove the set, another asleep in sem_create, who does not survive it |
| Philosophers.ForkFileIffHeld | Exp_4_Simulating_Dining_Philosophers_Problem/philosopher.c:11-34 | for any number of philosophers from two on, in every state of every run: the lock file of a fork exists if and only if a philosopher's program point holds it, and then only one's does |
| Philosophers.OneCall | Exp_4_Simulating_Dining_Philosophers_Problem/philosopher.c:10-55 | every philosopher, the last one too, thinks, takes two forks, eats and puts them down, over and again: the forks of its own number and the next one, for the last philosopher fork 0 and its own, and only the file of the fork in question changes |
| Philosophers.AnyoneCanEat | Exp_4_Simulating_Dining_Philosophers_Problem/philosopher.c:48-55 | each philosopher comes to eat in some run |
| Philosophers.InvNext | Exp_4_Simulating_Dining_Philosophers_Problem/lock.c:13-25 | every O_EXCL creation, failed or not, and every unlink keeps that |
| Philosophers.RunInv | Exp_4_Simulating_Dining_Philosophers_Problem/philosopher.c:48-55 | it holds in every state of every run from the initial unlinking on |
| Philosophers.NeighboursNeverBothEat | Exp_4_Simulating_Dining_Philosophers_Problem/philosopher.c:48-55 | two neighbours never eat at the same time |
| Philosophers.NoDeadlock | Exp_4_Simulating_Dining_Philosophers_Problem/philosopher.c:11-21 | while a philosopher is not thinking, some philosopher who is not thinking can make a call that changes something |
| Philosophers.AloneIsStuck | Exp_4_Simulating_Dining_Philosophers_Problem/philosopher.c:11-21 | a single philosopher would wait for its own fork for ever: two are needed |
| Philosophers.HungryEat | Exp_4_Simulating_Dining_Philosophers_Problem/philosopher.c:48-55 | if no thinker becomes hungry, as many rounds of turns in any order as there is work (at most five per philosopher) leave everybody thinking and no lock file, and every hungry philosopher has eaten on the way |
| Philosophers.RoundWorks | Exp_4_Simulating_Dining_Philosophers_Problem/lock.c:13-20 | a round in which everybody has a turn lowers the work strictly, failed polls included |
| Philosophers.WorkBound | Exp_4_Simulating_Dining_Philosophers_Problem/philosopher.c:11-34 | the work is at most five calls per philosopher |
| LockFiles.Forks.constructor | Exp_4_Simulating_Dining_Philosophers_Problem/philosopher.c:58-80 | whatever lock files were left behind, the program starts with everybody thinking and no fork taken, the initial state of the system |
| LockFiles.Forks.InitLocks | Exp_4_Simulating_Dining_Philosophers_Problem/philosopher.c:69-72 | whatever lock files were left behind, none is there afterwards |
| LockFiles.Forks.TryLock | Exp_4_Simulating_Dining_Philosophers_Problem/lock.c:13-20 | the file is there afterwards, and it was made by this call if and only if it was not there before |
| LockFiles.Forks.Unlock | Exp_4_Simulating_Dining_Philosophers_Problem/lock.c:22-25 | the file is gone, the others are as they were |
| LockFiles.Forks.Call | Exp_4_Simulating_Dining_Philosophers_Problem/philosopher.c:11-34 | each call changes files and program points as the system of all philosophers says |
| PrintSpool.NothingLost | apue.2e/ipp/printd.c:276-331 | in every interleaving of clients and printer thread the jobs that clients have asked for so far, read off their requests alone, are those ended, then the one in hand, then the queue: none lost, duplicated or overtaken by a deferral; and each is owed one signal |
| PrintSpool.FirstComeFirstServed | apue.2e/ipp/printd.c:683-694 | the m-th job to be printed or cancelled is the m-th job asked for, whatever was deferred |
| PrintSpool.NoLostWakeup | apue.2e/ipp/printd.c:285-293 | while the printer thread sleeps beside a queued job, some client still owes it a signal |
| PrintSpool.NothingStranded | apue.2e/ipp/printd.c:687-694 | from any state of any run, if nothing is added or deferred any more, every schedule is over after a bounded number of steps (spurious wake-ups aside), and where it stops every job ever asked for has ended, in order |
| PrintSpool.RestOrWork | apue.2e/ipp/printd.c:687-691 | unless the printer thread sleeps and no signal is owed, some step of the spooler is possible |
| PrintSpool.InvNext | apue.2e/ipp/printd.c:818-832 | every action keeps the conservation of jobs and of wake-ups |
| PrintJobs.JobList.Append | apue.2e/ipp/printd.c:285-292 | the doubly linked list from jobhead to jobtail is the old one with the job at the end |
| PrintJobs.JobList.ReplaceJob | apue.2e/ipp/printd.c:302-313 | the list is the job followed by the old list |
| PrintJobs.JobList.RemoveJob | apue.2e/ipp/printd.c:321-331 | the list is the old one without exactly that job, wherever it was |
| PrintJobs.Unlinked | apue.2e/ipp/printd.c:321-331 | joining the neighbours of any job of a chained list, at its ends or in the middle, leaves a chained list without it |
| PrintJobs.Printd.AddJob | apue.2e/ipp/printd.c:276-294 | the heap list has the job at its end, a signal is owed, and nothing else changes, as the queue of values says |
| PrintJobs.Printd.Look | apue.2e/ipp/printd.c:687-694 | the first job is taken in hand, or the thread goes to sleep |
| PrintJobs.Printd.Signal | apue.2e/ipp/printd.c:293 | a sleeping printer thread will look again |
| PrintJobs.Printd.Wake | apue.2e/ipp/printd.c:688-691 | so it will after a spurious wake-up |
| PrintJobs.Printd.Print | apue.2e/ipp/printd.c:716-833 | the job in hand is ended if its file is unreadable or the printer took it, and is put back at the head otherwise |
| TreeWalker.Walker.MyFtw | apue.2e/file/ftw4.c:57-66 | from a path through the one mutable buffer: the calls are those of the preorder enumeration of the tree the path names, up to the first nonzero result, which is returned; with the counting functions all are made, each counter is the census of the tree, and the S_IFDIR branch is never taken |
| TreeWalker.Walker.DoPath | apue.2e/file/ftw4.c:75-118 | the same at every level of the recursion, with what the buffer holds afterwards and how much of its start is never touched |
| TreeWalker.Walker.DoEntries | Exp_2_Traversing_Directory_Tree/myfind.c:195-205 | the same for the readdir loop: dot and dot-dot skipped, the part of the buffer up to the slash intact |
| TreeWalker.Walker.AddSlash | Exp_2_Traversing_Directory_Tree/myfind.c:186-190 | a slash is added, in myfind only where there is none |
| TreeWalker.Walker.StrLen | apue.2e/file/ftw4.c:95 | the length of the C string in the buffer |
| TreeWalker.Walker.StrCpy | apue.2e/file/ftw4.c:107 | the name and its NUL, nothing before them touched |
| TreeWalker.Walker.CallFunc | apue.2e/file/ftw4.c:121-155 | the call is made, the counters stay equal to the tally of the calls, and err_dump is reached only for FTW_F with S_IFDIR |
| TreeWalker.BufferRestored | Exp_2_Traversing_Directory_Tree/myfind.c:186-205 | the buffer is as it was if and only if the path was no directory, or its first call stopped the traversal, or it was readable and was given a slash, or it was unreadable and had one; ftw4 always gives one |
| TreeWalker.UnreadableDir | apue.2e/file/ftw4.c:95-101 | ftw4 on an unreadable directory reports it with a slash, which stays in the buffer |
| TreeWalker.ErasedSlash | Exp_2_Traversing_Directory_Tree/myfind.c:186-205 | myfind on an empty directory given with a slash erases that slash |
| TreeWalker.TrailingSlash | apue.2e/file/ftw4.c:83-86 | a regular file given with a slash is reported as one that cannot be stat'ed; a link to a directory given with a slash is walked as that directory |
| TreeWalker.HiddenFile | apue.2e/file/ftw4.c:102-107 | a directory that holds ., .. and a hidden file: the hidden file is called for and counted |
| TreeWalk.CallsOf | apue.2e/file/ftw4.c:83-112 | what cannot be stat'ed has one call, what is no directory one, an unreadable directory two; a readable one its own and then, in the order of readdir, those of every entry named neither . nor .., hidden or not, and none for those two |
| TreeWalk.CensusOf | apue.2e/file/ftw4.c:124-140 | the census counts a thing for its kind, a regular file of at most 4096 bytes also as small, a readable directory with every entry named neither . nor .. |
| TreeWalk.CallsCount | apue.2e/file/ftw4.c:124-140 | over a whole traversal each counter comes to the number of things of its kind in the visible tree, and FTW_F never comes with S_IFDIR |
| TreeWalk.CallsRight | apue.2e/file/ftw4.c:95-110 | the full path of every call leads to a thing of the type that the call says, doubled slashes or not |
| TreeWalk.KeyOfChild | Exp_2_Traversing_Directory_Tree/myfind.c:186-190 | a name after a slash is one more component of the path, whether or not the slash was already there, and a slash at the end asks for the directory that the path leads to |
| TreeWalk.PerformStops | apue.2e/file/ftw4.c:92-111 | making calls until one is nonzero means: the shortest prefix that ends in a nonzero result, and that result, or all of them and 0 |
| Expect.Line.ExpectStr | apue.2e/calld/expectstr.c:33-102 | "" expects nothing; a string that cannot be converted gives -1 before anything is read; otherwise, for any input and whatever inbuf held, -1 is never returned, and: if the converted string occurs before a read fails and no more than MAXLINE bytes arrive from its first character on, 0 after exactly the shortest prefix that ends in it; if more arrive, inbuf is overrun; if a read fails first, the process ends in log_sys unless it was a time-out; after a time-out the call never returns if the first character has not come (but 0 for an empty string with nothing delivered), and if it has, the window moves on over bytes that were never read: 0 if and only if they complete the string, else out of inbuf |
| Expect.Babble | apue.2e/calld/expectstr.c:89-96 | an input that overruns inbuf: one byte more than MAXLINE of a modem that repeats the first character of AB |
| Expect.JustFits | apue.2e/calld/expectstr.c:89-96 | one byte less, ending in AB, just fits |
| Expect.Silence | apue.2e/calld/expectstr.c:78-81 | nothing delivered before the alarm: a call for AB never returns, one for an empty string returns 0 |
| Expect.HalfCame | apue.2e/calld/expectstr.c:84-96 | A delivered and then the alarm: a call for AB returns 0 if inbuf happened to hold a B next, and its window leaves inbuf if that was all NULs |
| Expect.Line.Match | apue.2e/calld/expectstr.c:78-101 | the same for the pattern in expstr |
| Expect.Line.SkipTo | apue.2e/calld/expectstr.c:78-81 | reads up to the first byte equal to the first of the pattern; after a time-out no number of further calls of exp_read ends the loop |
| Expect.Line.Fill | apue.2e/calld/expectstr.c:82-88 | inbuf holds what has been read and behind it what it held; the loop runs to its end over a time-out, and otherwise a failing read has ended the process |
| Expect.Line.Slide | apue.2e/calld/expectstr.c:89-96 | the window stops at the first place of inbuf, read or not, that matches, or where inbuf is full, or where the process ends |
| Expect.Line.Same | apue.2e/calld/expectstr.c:90 | strncmp over matchlen bytes compares all of them, the pattern having no NUL |
| Expect.Line.Convert | apue.2e/calld/expectstr.c:46-71 | the conversion loop computes Decode into expstr, NUL-terminated |
| Expect.Line.StrLen | apue.2e/calld/expectstr.c:72 | the length of what was converted |
| Expect.Line.ExpRead | apue.2e/calld/expectstr.c:8-24 | one byte and 1; or, at the end of the input, the largest size_t, which is not negative, with the buffer as it was, for a time-out, and the end of the process for any other failure |
| Expect.EscapeRoundTrip | apue.2e/calld/expectstr.c:46-70 | a text with blanks and returns escaped is converted back to itself |
| Expect.FirstEscape | apue.2e/calld/expectstr.c:46-70 | the first backslash with an r is a return and with an s a blank, what is before it is kept and what is behind converted in turn; with any other character, or none, the conversion fails |
| Expect.ExpressibleIff | apue.2e/calld/expectstr.c:52-67 | a text can be expected if and only if it has no backslash: there is no escape for one |
| CalldScan.ScanMeans | apue.2e/calld/request.c:13-57 | one search stops at the first matching Systems entry whose device is free or does not exist, having passed every earlier match because its device was locked, and changes nobody's lock |
| CalldScan.RequestMeans | apue.2e/calld/request.c:12-57 | a request goes on from the entry after the last one tried: a child is started for the first entry from there on that has the name and, if one was asked for, the speed, and whose device nobody has; that entry is then the last one tried, the matches are counted, and only its line changes owner; a refusal changes none and is for a device-less entry that would be next or the end of the file, with the error message that says so |
| CalldScan.SysftellAtRefusal | apue.2e/calld/request.c:26-27 | a refusal leaves sysftell other than -1 if and only if the search ended for want of a device, contrary to the comment at the last return |
| CalldScan.DevicelessEntry | apue.2e/calld/request.c:26-27 | such a refusal: two entries for the system, the first without a device; sysftell stays at 1 and the second, whose device is free, is not tried |
| CalldServer.Calld.Request | apue.2e/calld/request.c:4-69 | the code computes that: return value, client, lock table and error message |
| CalldServer.Calld.FindDevice | apue.2e/calld/request.c:26 | the first device of the type and class, or the error |
| CalldRuns.LinesExclusive | apue.2e/calld/lock.c:46-81 | over all runs of any number of clients, whatever process numbers fork gives and whatever client[] held, in which each lock_rel finds the client's own line first or none: no two clients have a line at once, a line is locked exactly while a client has it and under that client's process, and a request starts no more children than Systems has entries |
| CalldRuns.StartsOnFreeLine | apue.2e/calld/loop.c:173-183 | over all those runs: a child is started only on a line that nobody has, for the first matching entry with a free device, from the beginning for a new request and from the entry behind the one that failed for a retry |
| CalldRuns.SentAway | apue.2e/calld/loop.c:117-129 | over all those runs: a client is sent away only when no entry from there on matches and has a free device, or the one that would be next has no device |
| CalldRuns.RetryDialsNext | apue.2e/calld/loop.c:173-183 | two entries for a system, each with a device: when the child on the first has failed the next dials on the second |
| CalldRuns.InvNext | apue.2e/calld/loop.c:81-92 | that condition is exact: a close or the failure of a child keeps every client's line its own if and only if the first table entry with the client's number is the line it has, or there is none; connections, requests and successful children always do, whatever number fork gives |
| CalldRuns.RecycledNumber | apue.2e/calld/lock.c:63-75 | a run that breaks it, exactly at its one unsafe close: the place of a client that has gone still holds its child's number, which another's child has been given; whoever next takes that place frees the other's line by leaving, and two clients have it |
| CalldLock.RelOwner | apue.2e/calld/lock.c:63-75 | lock_rel frees a line if and only if its entry is the first of that process, so exactly the process's line when it has one only |
| CalldLock.SetOwner | apue.2e/calld/lock.c:52-60 | lock_set changes the owner of its line only, with one entry per line |
| CalldLock.KnownOwner | apue.2e/calld/lock.c:20-50 | find_line leaves every owner as it was and keeps one entry per line |
| CalldLock.LockTable.Grow | apue.2e/calld/lock.c:34-42 | realloc keeps all entries and makes room |
| CalldLock.LockTable.FindLine | apue.2e/calld/lock.c:20-50 | the index of the only entry for the line, the table growing by at most that entry |
| CalldLock.LockTable.LockSet | apue.2e/calld/lock.c:52-60 | the table is that with the line's owner set |
| CalldLock.LockTable.LockRel | apue.2e/calld/lock.c:63-75 | the table is that with the first entry of the process freed |
| CalldLock.LockTable.IsLocked | apue.2e/calld/lock.c:77-81 | the owner of the line, 0 if it is free or was never seen |
| PassFd.Arrives | apue.2e/lib/recvfd.c:19-71 | for every NUL-free message, every value sent and every cutting of the stream: if the last two bytes come together the user function gets exactly the message in order and the descriptor or minus the status is returned; if not the process dumps |
| PassFd.ReceivedEnd | apue.2e/lib/recvfd.c:39-71 | any other stream, after any pieces without a null byte, which are handed on one by one: a closed connection gives -1; a null byte that is not the last but one of its piece, or a status of 0 without a descriptor, ends the process; else the descriptor or minus the status is returned |
| PassFd.CutUpArrives | apue.2e/lib/recvfd.c:51-65 | the same with parts already delivered |
| PassFd.DeliveredCutUp | apue.2e/lib/recvfd.c:39-44 | any pieces that join to the stream are its cutting, one by one |
| PassFd.ValueKept | apue.2e/lib/sendfd.c:29-46 | the value received is the one sent if and only if it is a descriptor or an error down to -255; an error never arrives as success |
| PassFd.RefusedAtTheEnd | apue.2e/lib/recvfd.c:66-67 | a user function that does not take all of the last piece makes recv_fd return -1 although the descriptor has come |
| PassFd.Receiver.RecvFd | apue.2e/lib/recvfd.c:19-71 | the code computes Receive on any pieces whatever, formats errors and closed connections included |
| PassFd.Receiver.RecvMsg | apue.2e/lib/recvfd.c:29-44 | the next piece is in the buffer |
| PassFd.Sender.SendFd | apue.2e/lib/sendfd.c:16-50 | two bytes are appended: 0 and the status, which is 0 exactly for a descriptor |
| PassFd.Sender.SendErr | apue.2e/lib/senderr.c:9-24 | the message and then the two bytes of a negative code |

## Left out

Database:
- Callers pass C strings, keys without ':' (`CallOk`), as the format needs; `DbSeparator` shows what one with ':' does to its chain. Empty and all-blank keys are included.
- DbTheorems.InvNext: a store whose index record is too long ends at the check of its length (`db.c:583`). Before that check `sprintf` formats the record into `idxbuf`, which has IDXLEN_MAX + 2 bytes: for a record of more than IDXLEN_MAX + 1 bytes what it writes behind the buffer is not part of the model.
- Offsets are as long as they get: pointers past 999999 are met with the code's own check; the size of a data offset is bounded only by the length limit of the index record.
- Each process has its own handle and one call at a time; two handles in one process share `fcntl` locks and are not covered.
- `lseek` is merged with the read or write that follows, except the one that finds the end of a file before an append, and the two buffers of a `writev` or `readv` are one access; nothing can come between that another process could see under the locks held.
- A process killed from outside in the middle of a call: the code makes no promise then, and the chain may be left half rewritten.
- `db_nextrec` beside writers: it locks only the free list and promises no more; a scan is modelled with no other call in progress, and none between `db_rewind` and its end. The files may have been written by any number of processes before.
- `db_open` when two processes create the database, `db_close`, allocation and names. I/O errors other than end of file.
- `_db_dodelete` passes `_db_writeidx` the buffer that it formats into; the key is taken to be read before it is overwritten.
- A replacement of another length never reuses space; nothing is claimed about the size of the files beyond the counters and what each store adds.
- A negative number in the six columns of a pointer ends the process in the model; `db.c` does not check for one, and none is ever written.
- `char` is signed and `unsigned long` has 64 bits in the hash.
- Fairness between processes: a call makes progress whenever it runs, and somebody can always run, but a process may wait for ever.

Semaphores:
- The set is a value of the state, not an object, since it is the kernel's and all processes change it. The limits are those of Linux: values up to 32767, adjustments from -32768 to 32767, values cut off at both ends when undoing.
- `sem_op` that has to wait is a call that changes nothing and can be made again.
- `sem_open` and direct calls of `sem_rm`: `sem_open` lowers the counter without the lock and can fall between the closer's GETVAL and the removal, so the removal property would not hold with it.
- A process calls `sem_close` once for each `sem_create`; private and invalid keys; permission failures.
- SemaphTheorems.Conservation: for runs with fewer than BIGCOUNT users at once, because beyond that the code overwrites a set in use (`OverwriteReachable`).

Philosophers:
- Starvation: a polling file lock lets a neighbour be faster every time. `HungryEat` therefore takes no new hunger.
- Failures of `open` other than an existing file (the program polls for ever), `sleep`, and the parent's wait.
- The polling loop of `lock` as one call: `TryLock` is one pass of it, the system of philosophers its repetition.

Spooler:
- Sockets, the HTTP and IPP headers and the printer's answer: one bit says whether the job was printed. Spool files, signals, configuration and job numbers.
- The critical sections of `joblock` are single actions; nothing waits inside them.

Tree walks:
- Paths longer than the buffer; files that come and go during the walk; `chdir`; the errors of `closedir`.
- `-comp`, `-name` and `getFilenamePos` of `myfind`, whose functions are covered as arbitrary callers' functions only.
- What `lstat` leaves in the status buffer of a file that cannot be stat'ed, and the sizes of directories.

Dialler:
- What `log_sys` and the debugging lines print. Which read of a call fails is arbitrary; after a time-out `caught_alrm` makes all the others fail. An expect string has fewer than 4096 characters, being a word of a line that `fgets` reads into that many bytes (`dialfile.c:21`).
- What happens once `inbuf` is overrun, or the window has left it: the outcome is `Overrun` or `Stray`, nothing more is said.
- Systems and Devices are lists of well-formed entries; positions count entries. `fork` failing ends the server.
- CalldRuns.LinesExclusive: for runs in which each `lock_rel` finds the client's own line first or none; without that it is false (`RecycledNumber`), and `InvNext` says exactly at which steps.
- CalldRuns.InvNext: the end of a child is credited to the client that it dials for. `client_sigchld` (`client.c:73-84`) takes the first place of `client[]` with the child's number, those of clients that have gone included, and a new client there finds it.
- A client that closes while its child still dials frees the line under the child, whose end is then reported to whoever has its place; several requests on one connection; terminals and `send_str`.

Descriptor passing:
- Failing or short writes and `malloc` failures; the control buffer is right when a descriptor comes.
- Messages with a NUL byte: they end in "message format error" or are cut, depending on the pieces.

Elsewhere in the repository: shells, signal demonstrations, pseudo terminals, `opend`, error and logging routines and `std` are input and output or short examples; `threads/mutex2.c`, `mutex3.c` and `rwlock.c` do not keep the invariants they are meant to.
