# A verified model of the virtual SCSI host adapter

The repository is a Linux driver (`kernel/`) that lets a user program act as the SCSI target behind a virtual host
adapter, a small API for such programs (`user/vscsiapi.c`), and a target that serves regular files as disks
(`user/main.c`, `user/scsi_target.c`, `user/scsi.c`). A command travels a long way: the SCSI mid layer queues it in
the kernel; a target reads a 31-byte header, claims the command with an ioctl, fetches its data through a second
read, runs it on a file, and writes a completion with a 6-byte head, whereupon the kernel deals the data out over the
command's scatter/gather list and calls the mid layer back. Meanwhile commands are aborted, the host is reset, other
targets attach to the same session and take part, targets die, and sessions are destroyed and created again.

The model has three layers that share their definitions.

* **The code on its own objects.** `Hba`, `Device`, `Registry`, `Wire`, `ScatterGather`, `Engine`, `Target` and
  `Service` follow the C functions on classes, arrays and loops: tasks and commands that point to each other, the
  session list, user buffers whose end faults, LUN files whose reads and writes transfer any partial count, the LUN
  list that grows at its head. Each method is proved against a function of the state before it.
* **The protocol.** `Queue` says what each locked section does to the queue of a session as a value; the methods
  above are proved to do exactly that. `Protocol` makes these the steps of a transition system over one minor number:
  the mid layer, any number of open files with a target process behind each, a program counter per target, the stdio
  stream of each target on each LUN file, and a record of hand-backs, header reads and runs. Steps interleave freely.
  `Invariant` and `Steps` show what every step keeps, however often command numbers have come around; `Order` shows
  what holds besides while they have not. `Guarantees` draws the conclusions over whole runs. `Sharing`, `Wraparound`
  and `LostWrites` show when targets run a command twice, complete the command of another, or lose a write, each with
  its exact condition and with the runs in which it happens, which `Continuations` builds.
* **The block device.** `BlockDevice` is a device that runs one command at a time, atomically. A write that was
  answered may still be in a stream; `Streams` defines the settled disks, the LUN files once all streams are flushed.
  `Refinement` shows that every steady step of the protocol, with any number of targets, is a step of this device on
  the settled disks, or none. A step is steady if it kills no target that has unflushed bytes, and if a command that
  goes to the disk finds no unflushed bytes of another target there and nothing outdated in its own stream. `OneTarget`
  shows that with at most one target attached at a time only killing can break this, and that the device then runs each
  command at most once, in the order of issue.

Two kinds of runs occur. A `Run` starts from the empty driver and takes any enabled steps, as long as fewer than 256
registrations of a session are outstanding. In a `RecentRun` moreover fewer than 2^32 - 1 commands are accepted after
any command that is still queued or held (`NumbersRecent`). Hand-backs, pointers, header order, lifetimes, aborts and
resets are settled for every `Run`; claims in front of the queue and the refinement need a `RecentRun`.

`DataPath`, `Service` and `Turns` join the layers: a turn of the service loop on the objects, from header to completion,
moves exactly the addressed disk bytes to or from exactly the command's segments, and it is a run of the protocol from
a state that stands for the objects before the turn to one that stands for them after it. `Lockstep` does this call by
call, in whatever state a call finds the objects: each method of the driver and of the target's interface is run next to
the step of the protocol it stands for, and the objects afterwards are those that the new state stands for.

Integers have the widths of the source where they matter: command numbers and `cmd_numbers` wrap at 2^32,
`Device_Open` is one byte, block addresses are `long`, `count` is `int`. `long` has 8 bytes and the byte order is
little-endian, so a store through a `long` pointer of an `htonl` result writes four big-endian bytes and four zeros.

## What the code does differently from what is written about it

* `kernel/device.c:347` says that the receive ioctl makes sure that no other target picks the command up. It cannot:
  the header was read in an earlier, separate step. Commands run at most once if no header is read while another target
  stands between the header and the claim of an unclaimed command (`GuardedRunsOnce`), and a header read keeps commands
  unshared only then (`ReadKeepsUnshared`); wherever that fails the run can go on so that both targets execute the
  command (`UnguardedRunsTwice`). Only one of them hands it back (`ExactlyOneHandBack`).
* `kernel/hba.c:252` calls the command number unique. It identifies a command as long as fewer than 2^32 - 1 commands
  are accepted while it is queued or held. Beyond that a late completion can finish a command its target has never
  seen: `StaleCompletionMisdirects` says exactly when, and `StaleCompletionHappens` continues runs to that point.
* A target answers a write as good once `fwrite` has returned (`user/scsi.c:1403-1407`), and nothing flushes the stream
  that it opened on the LUN file (`user/scsi_target.c:165`) before its next seek or its exit. `README-BASE:85` offers
  several targets on one adapter, of which one may be killed. A write answered as good is then lost
  (`GoodWriteIsLost`), killing being harmless if and only if the unflushed bytes are in the file already
  (`KillingLosesWrites`), and another target reads around it (`AnotherReadsOld`).
* `Device_Open` counts registrations in one byte. Registering keeps the session state right exactly while fewer than
  255 registrations are outstanding (`RegistrationLimit`); one more and a session can be destroyed under a target
  (`OneRegistrationTooMany`), which one target alone can bring about (`SessionCanBeLost`).
* `kernel/device.c:399` returns with the queue lock held. It is reached only by an attached file whose session is not
  ready, and there is none (`SessionsOutliveFiles`).
* A successful data read returns 31, not 31 plus the data (`kernel/device.c:137`), and a data read of zero bytes asks
  for 31 and is answered with the header of another command (`kernel/device.c:104`), or makes the target exit if there
  is none; both are modelled.
* `scsitap_complete_task` reads `task->flags` after freeing the task (`kernel/hba.c:179-181`). The model reads the
  value from before the free.
* WRITE(6) is the standard's WRITE(6) exactly when the upper five address bits are zero and the length is not
  (`Write6MeetsStandard`). READ CAPACITY agrees with the access checks exactly on a disk that is not empty
  (`CapacityAgreesWithAccess`). REPORT LUNS stays inside the allocation length exactly under `StaysInside`
  (`ReportLunsStaysInside`): the comparison at `user/scsi.c:57` admits one byte too many, and the length field is
  stored even when there is no room for it.
* All LUNs get the size that `stat` reported last (`user/main.c:134`), so `add_lun` cuts or extends every file of
  another size; `AddLuns` states the contents that result.
* The table of file names has 256 entries and no bound is checked; a 257th name is `Overrun` in `SplitFiles`.

## Model

| member | source | states |
|---|---|---|
| Guarantees.SoloRunIsBlockDevice | user/main.c:160-198 | In every run with at most one target attached at a time in which no target is killed with unflushed bytes, through aborts, resets, exits, crashes and restarts: commands run at most once and in the order of acceptance, the disks, once the streams are flushed, are the replay of the runs, and every READ(10), READ CAPACITY and REPORT LUNS handed back as good carries what the older commands left |
| Guarantees.KillingLosesWrites | user/scsi.c:1400-1410 | After every steady run, killing a target leaves the settled disks equal to the replay of the runs if and only if its unflushed bytes are in the files already |
| Guarantees.SoloRunsAreSteady | user/scsi_target.c:165 | A run with at most one target attached at a time is steady as long as no target is killed that has unflushed bytes: a lone stream is never outdated |
| Guarantees.RunIsBlockDevice | user/main.c:160-198 | In every steady run with any number of targets, one in which no unflushed bytes are lost and no command meets unflushed bytes of another target or outdated ones in its own stream: the settled disks are the replay of the runs, every command a target hands back has the status of a run of that command, and every READ(10), READ CAPACITY and REPORT LUNS handed back as good carries what the runs before one of its own left |
| Guarantees.RunsRefine | user/main.c:160-198 | Every state of every steady run stands for a state of the atomic block device that satisfies all the guarantees of that device |
| Guarantees.SoloRunsInTurn | user/vscsiapi.c:39-54 | With at most one target attached at a time, what a target is about to run is younger than everything that has run, and no command runs twice |
| Refinement.StepRefines | user/vscsiapi.c:39-71 | Every single steady step of the protocol, whatever it is and however many targets there are, is one step of the atomic block device on the settled disks or leaves it alone; what the device runs is a command some target holds |
| OneTarget.StepForward | kernel/device.c:104-112 | With one target at a time every step keeps what is about to run younger than everything that has run |
| OneTarget.StepKeepsCurrent | user/scsi.c:1321-1322 | With one target at a time what a stream has read before stays what is in its file |
| OneTarget.SoloIsSteady | user/scsi.c:1321-1322 | With one target at a time a step is steady if it loses no unflushed bytes |
| Refinement.ExecuteRefines | user/main.c:174-189 | Running a command from the request buffer, undisturbed by the streams of others, is one run of the device, with the effect and the report it prescribes, however much of a write stays in the stream |
| Refinement.DieRefines | user/scsi.c:1400-1410 | A target that is killed inside a write, when it had nothing unflushed or after its seek, leaves the device as after a write of some first bytes |
| Refinement.KilledAnywhere | user/scsi.c:1400-1410 | A kill inside a write can leave any number of first bytes of the payload in the file, over what the seek has flushed; the rest of the stream is lost |
| Refinement.CompleteRefines | kernel/device.c:174-263 | A completion answers one pending command with the status and data of its own run, or does nothing |
| Refinement.EngineMatches | user/scsi.c:1300-1414 | What the engine does to the disk and puts in the request buffer is what the device prescribes for the submitted command, for reads, writes, READ CAPACITY and REPORT LUNS alike |
| BlockDevice.StepKeepsConsistent | user/scsi.c:1300-1414 | Every step of the reference device keeps: disks equal to the replay of the runs, reports equal to what the disks held at that point, answers backed by runs of their own command |
| BlockDevice.StepKeepsOnce | user/main.c:160-198 | As long as the device starts only commands younger than everything that has run, each runs at most once and in issue order |
| BlockDevice.AnswersAreRight | user/scsi.c:1300-1327 | A command that the device answered as good carries, for a READ(10), the extent of the disks after some prefix of the runs, ending at its own; for READ CAPACITY, the last block and block size of its LUN; for REPORT LUNS, the LUN list cut to its length |
| BlockDevice.ListedLuns | user/scsi.c:32-69 | A reply that the device admits for REPORT LUNS decodes to the first LUNs that fit, in list order, and its length field counts all of them |
| BlockDevice.ReportedLuns | user/scsi.c:55-58 | An initiator that decodes an admitted REPORT LUNS reply finds the number of LUN k of the list in place k, and, if all fit, exactly the numbers under which commands find a LUN |
| BlockDevice.FindLunFirst | user/scsi_target.c:52-56 | Looking a number up finds the first LUN of the list with it, and fails only if there is none |
| Streams.RunSettles | user/scsi.c:1400-1410 | A command that meets no unflushed bytes of another target and nothing outdated in its own stream is served as from the settled disk, and file and stream afterwards settle to the disk it promised |
| Streams.SeekFlushes | user/scsi.c:170-193 | The seek of a READ(10) in range or of READ CAPACITY brings the bytes the target's own stream still held into the file, and nothing else |
| Streams.WriteSplits | user/scsi.c:1400-1410 | A write in range flushes too, and then any number of its first bytes is in the file and the rest in the stream, which is all that is unflushed |
| Streams.NoSeekNoChange | user/scsi.c:1312-1320 | A command that moves no block, is out of range, or is about neither blocks nor the size leaves file and streams alone |
| Streams.ReadsAhead | user/scsi.c:1321-1322 | After a READ(10) the stream can hold any range of the file |
| Streams.KillingLoses | user/scsi_target.c:165 | Killing a target leaves the settled disks as they were if and only if its unflushed bytes are in their files already |
| Streams.ReadsSettled | user/scsi.c:1321-1322 | While a target has unflushed bytes for a LUN, another one reads what the settled disk holds if and only if the file agrees with those bytes on the extent; a stream with bytes of an earlier read shows the file if and only if the file still agrees with them |
| Guarantees.EndsOfTarget | user/main.c:163-165 | A target that calls exit saves what its streams hold, one that crashes on a missing LUN loses it; no run is recorded |
| Streams.ExitSettles | user/main.c:163-165 | A target that calls exit leaves the settled disks as they were |
| LostWrites.GoodWriteIsLost | user/scsi.c:1400-1410 | From every state of a steady run in which a target is idle and the next command is a write that changes its LUN, the run can go on so that the write is answered good, the target is killed, and the disks are not the replay of what ran |
| LostWrites.AnotherReadsOld | user/scsi.c:1321-1322 | A READ(10) that another target runs meanwhile returns what the settled disk holds if and only if the file already agrees with the unflushed bytes on its extent |
| Steps.RunsAreSafe | kernel/device.c:79-476 | Every state of every run, with any number of targets and however often command numbers come around, satisfies the invariant; only registrations are bounded, by 255 at a time |
| Order.RunsKeepInv | kernel/hba.c:252-259 | Every state of every run in which no number comes around for a command still queued or held also satisfies what depends on numbers: claimed commands in front, request buffers with the own payload, claims for all that ran |
| Steps.StepKeeps | kernel/device.c:79-476 | Each of the thirteen kinds of step keeps the invariant, whatever numbers have been reused: lifetime, counters, back pointers, accounting, header order, what each target knows, streams |
| Order.StepKeepsOrder | kernel/device.c:79-476 | While numbers are recent, each kind of step keeps the order of claims and the payloads in request buffers |
| Order.ClaimInOrder | kernel/device.c:395-411 | Claiming keeps it: claimed commands stay in front although reading and claiming are separate steps |
| Order.FetchInOrder | kernel/device.c:114-154 | Fetching data puts the command's own payload into the request buffer, including the zero-length read answered with a header |
| Order.OwnNumber | kernel/hba.c:83-93 | While numbers are recent, the number a target holds finds the very command whose header it read, or nothing |
| Steps.ReadHeaderKeeps | kernel/device.c:104-112 | Reading a header keeps it; everything older than the header is claimed |
| Steps.ClaimKeeps | kernel/device.c:395-411 | Claiming marks some queued task, the own one or not, and keeps the invariant |
| Steps.FetchKeeps | kernel/device.c:114-154 | Fetching data keeps it, whichever command the number finds |
| Steps.ExecuteKeeps | user/main.c:174-189 | Running keeps it, and records the run with its status and reply |
| Steps.DieKeeps | user/scsi.c:1400-1410 | The death of a target inside a run keeps it |
| Steps.CompleteKeeps | kernel/device.c:193-256 | Completing keeps it, whether the command is still there, is gone, or another one has its number |
| Steps.AttachedIsUsable | kernel/device.c:96-99 | The session of an attached file is the live one and is ready, so the not-ready returns are not taken |
| Steps.TargetRunsCommand | user/vscsiapi.c:12-24 | The target decodes the command the mid layer submitted, despite CDB bytes left by earlier commands, and its transfer stays inside the request buffer |
| Invariant.SubmitKeeps | kernel/hba.c:214-276 | Queueing keeps the invariant, with or without a cache slot, ready or not; when a command is accepted is the matter of `AcceptedWhenRegistered` |
| Invariant.AbortKeeps | kernel/hba.c:188-209 | Aborting keeps it, for pending commands and others |
| Invariant.ResetKeeps | kernel/hba.c:118-135 | Host reset keeps it |
| Invariant.UnregisterKeeps | kernel/hba.c:383-411 | Destroying a session keeps it: no attached file is left behind |
| Invariant.RegisterKeeps | kernel/device.c:360-393 | Registering keeps it, with a new session or an existing one, even from a file that is attached already |
| Invariant.ReleaseKeeps | kernel/device.c:456-476 | Closing keeps it; the session turns not ready with the last registration |
| Guarantees.DeliveryInOrder | kernel/device.c:104-112 | In every run with any number of targets in which numbers are recent, the queue is a block of claimed commands followed by a block of unclaimed ones, in the order of acceptance |
| Guarantees.HeadersAreOrdered | kernel/device.c:104-112 | In every run, whatever numbers have been reused, headers are read in the order of acceptance, and everything older than a header that was read is claimed |
| Guarantees.HeaderIsOldest | kernel/device.c:105-110 | A header read returns the oldest unclaimed command, and everything queued before it is claimed |
| Guarantees.ExactlyOneHandBack | kernel/hba.c:171-182 | In every run, also when numbers come around and completions are late: accepted is queued plus gone, every command is either queued or has left by exactly one hand-back or drop, and cmd_numbers is the length of the queue modulo 2^32 |
| Guarantees.PointersMatchTasks | kernel/hba.c:171-182 | In every run the pointer of a command is set exactly while a task of that command is queued, to that task, and no command has two |
| Guarantees.GoneForGood | kernel/hba.c:171-182 | A command that has left the queue at some point of a run is never queued again, and the one event by which it left stays the same |
| Guarantees.SessionsOutliveFiles | kernel/device.c:360-476 | In every run, whatever numbers have been reused: no freed session is used and no buffer overrun; attached files point to the live session; Device_Open counts the registrations, at least one for each attached file; ready exactly when it is not zero |
| Guarantees.RegistrationLimit | kernel/device.c:378-390 | Registering keeps "ready exactly when Device_Open is not zero" if and only if fewer than 255 registrations are outstanding |
| Guarantees.OneRegistrationTooMany | kernel/device.c:418-432 | After the 256th registration the session can be destroyed while a file points to it, and the next header read uses it |
| Guarantees.SessionCanBeLost | kernel/device.c:378-390 | There is a run of registrations by one target that ends with 255 of them, from which the next one allows that |
| Guarantees.AcceptedWhenRegistered | kernel/hba.c:224-232 | In every run a command is accepted if and only if the mid layer queues it, the cache has a slot and a target is registered; it is then the youngest, at the end of the queue and unclaimed; without registrations the queue never grows and queueing changes nothing |
| Guarantees.MisuseIsRecorded | kernel/device.c:92-99 | What the runs are shown never to do is recorded when it happens: a call on a file whose session is gone or not ready, a transfer past the request buffer, an abort whose pointer leads to no task |
| Guarantees.CompletionIsOwn | kernel/device.c:203-254 | While numbers are recent, a completion finishes the command whose header its target read, or changes nothing in the driver if that command is gone, also when numbering has restarted in a new session |
| Guarantees.CompletionStep | kernel/device.c:203-254 | Whoever's number it carries, a completion hands back the first queued task with that number, with the status of the target's run and its data as far as that task's own buffer reaches, or nothing |
| Guarantees.StaleCompletionMisdirects | kernel/device.c:203-254 | In every state of every run a completion hands back a command other than the one its target ran if and only if another queued command lies a multiple of 2^32 - 1 acceptances away and is older, or the own one is gone |
| Wraparound.StaleCompletionHappens | kernel/hba.c:252-259 | Every run that ends with a target holding a finished command that is no longer pending, and nothing else pending, can go on until that target completes a command it has never seen |
| Guarantees.StaleNumberMisdirects | kernel/hba.c:83-93 | The lookup behind it: a number finds another command than the one meant under exactly that condition |
| Guarantees.AbortIsExact | kernel/hba.c:188-209 | Abort takes out the command's own task and no other without a completion call, clears its pointer, and leaves everything alone if the command is not pending |
| Guarantees.DrainsAreComplete | kernel/hba.c:383-411 | Reset empties queue, counter and pointers without a completion call; destruction hands every pending command back once, in order, as not connected, and does nothing while registrations are counted |
| Sharing.GuardedRunsOnce | user/vscsiapi.c:39-54 | In every run with any number of targets in which no header is read while another target stands between the header and the claim of an unclaimed command, every command runs at most once |
| Sharing.ReadKeepsUnshared | kernel/device.c:104-112 | That guard is exact: reading a header keeps "no two targets are about to run one command, and none what has run" if and only if it holds |
| Sharing.HeaderShared | kernel/device.c:104-112 | A header read returns the command another target is about to run if and only if that target has not claimed it and it is still unclaimed |
| Sharing.StepKeepsUnshared | user/vscsiapi.c:39-71 | Every step under the guard keeps commands unshared |
| Sharing.ClearWhenAlone | user/vscsiapi.c:39-54 | The guard holds whenever no other target has an unclaimed header, and whenever only one is attached |
| Sharing.UnguardedRunsTwice | kernel/device.c:347 | From every state of a run in which the guard fails for an idle attached target, for a command that can run, the run can go on so that both targets execute that command |
| Sharing.TwoTargetsRunTwice | user/vscsiapi.c:39-54 | In particular from every state in which two attached targets are idle and such a command waits |
| Continuations.Reads | kernel/device.c:104-112 | An idle attached target can read the header of the oldest unclaimed command, which stays unclaimed |
| Queue.AcceptCounts | kernel/hba.c:252-259 | The n-th accepted command of a session gets number ((n-1) mod (2^32-1)) + 1, through the wrap |
| Queue.NumOf | kernel/hba.c:252-259 | A command number is never 0 |
| Queue.NumOfInjective | kernel/hba.c:252-259 | Two commands with the same number are at least 2^32 - 1 acceptances apart |
| Queue.NumbersDistinct | kernel/hba.c:252-266 | Queued numbers are pairwise distinct while no task stays queued across 2^32 - 1 later acceptances |
| Queue.LookupExact | kernel/hba.c:83-93 | While numbers are recent, looking one up finds the command it was given to, and nothing only if that command is not queued |
| Queue.LookupModulo | kernel/hba.c:83-93 | Without that assumption it finds the first queued command a multiple of 2^32 - 1 places away |
| Queue.FoundAgain | user/vscsiapi.c:39-54 | The command whose header was just read is found again under its number |
| Queue.IndexOfNum | kernel/hba.c:83-93 | The first position in the queue with this number |
| Queue.FirstSubmitted | kernel/device.c:105-110 | The first unclaimed position; everything before it is claimed |
| Queue.RecentIsShort | kernel/hba.c:255-256 | Such a queue is short enough for cmd_numbers never to wrap |
| Hba.Session.QueueCommand | kernel/hba.c:214-276 | On the linked objects: refused, with sense that decodes to NOT READY and with the residual, when not ready; busy without a slot; otherwise a fresh task at the end of the queue with the next number, linked to its command |
| Hba.CommFailureMeans | kernel/hba.c:158-165 | The stores of a refusal decode, in fixed format (SPC-3, section 4.5.3), to NOT READY, logical unit communication failure, with six additional bytes, and leave every other byte alone |
| Hba.IllegalSenseMeans | kernel/hba.c:63-77 | The default sense decodes to no sense key and no additional code, with six additional bytes, and holds nothing else |
| Hba.Session.CompleteTask | kernel/hba.c:171-182 | The task and no other leaves the queue, the pointer is cleared, the command is handed back unless it was aborted; tasks and commands stay linked one to one |
| Hba.Session.EhAbort | kernel/hba.c:188-209 | The session loses exactly the command's own task, nothing is handed back, and all links hold |
| Hba.Session.EhHostReset | kernel/hba.c:118-135 | Draining the list while walking it empties the session and hands nothing back |
| Hba.Session.HandBackAll | kernel/hba.c:396-402 | The loop hands every pending command back once, in order, as not connected, with full residual and sense that decodes to NOT READY |
| Hba.Session.TaskOfCmd | kernel/hba.c:83-93 | The loop returns the task that the lookup on the queue value names |
| Hba.Session.TakenOut | kernel/hba.c:177-180 | Taking one task out and clearing its pointer keeps the bijection between queued tasks and pending commands |
| Hba.Session.PutIn | kernel/hba.c:248-266 | Adding a task for a command that has none keeps it |
| Registry.Sessions.GetSession | kernel/hba.c:303-310 | Finds the session of a minor number if and only if there is one |
| Registry.Sessions.CreateSession | kernel/hba.c:319-376 | A fresh session at the end of the list with numbering from 1, or no change if the host cannot be added |
| Registry.Sessions.Register | kernel/device.c:360-393 | The file is attached to the one live session of its minor, new or old, whose registration is counted; no other session changes |
| Registry.Sessions.Release | kernel/device.c:456-476 | The registration is uncounted, and the session not ready after the last one |
| Registry.Sessions.DestroySession | kernel/hba.c:383-411 | Does nothing while registrations are counted; otherwise the session leaves the list, the others keep their order, and each pending command is handed back once, in order, as not connected |
| Registry.Sessions.Unregister | kernel/device.c:418-432 | Destroys the session of the minor number exactly if it exists and has no registrations; other sessions do not change |
| Registry.ReceiveTask | kernel/device.c:395-411 | Claims the task with this number, or nothing if there is none |
| Device.TaskToUser | kernel/device.c:39-69 | Prints exactly the 31-byte header, or fails if the user buffer is too short for it |
| Device.ScsitapCtlRead | kernel/device.c:79-160 | All branches: no session, not ready, short count, header of the oldest unclaimed command, header and flat contents of the segments for a claimed command with the right count, and each failure, also of a user buffer shorter than the count |
| Device.ReadData | kernel/device.c:114-154 | The data branch: header followed by the concatenated segments, and the user buffer unchanged past them |
| Device.TransferOut | kernel/device.c:142-153 | With or without scatter/gather, the user buffer gets the segments as far as it holds them; success exactly when all were copied |
| Device.TransferIn | kernel/device.c:218-235 | The same in the other direction |
| Device.TakeCompletion | kernel/device.c:212-250 | Data or sense of a completion as its status asks; fails exactly when something the kernel needs faults |
| Device.SenseTaken | kernel/device.c:237-250 | What a completed command has in its sense buffer, byte for byte, for each kind of status |
| Device.ScsitapCtlWrite | kernel/device.c:174-263 | A completion finishes the task with its number: it leaves the queue, its command gets status, sense and data and is handed back once; without such a task nothing changes and the write succeeds; a message of another type or cut short changes nothing; on a fault the task stays |
| ScatterGather.CopyToUserSg | kernel/device.c:300-324 | The loop leaves the served segments in the user buffer, and succeeds exactly when every segment has an address and fits |
| ScatterGather.CopyFromUserSg | kernel/device.c:271-293 | The loop deals the buffer out over the served segments, and succeeds exactly when every segment has an address and the buffer reaches |
| ScatterGather.ServedWhole | kernel/device.c:300-324 | All segments are served if and only if they all have addresses and fit |
| ScatterGather.GatherAt | kernel/device.c:300-324 | Byte j of segment i is the byte at its page address plus offset plus j, and comes behind the bytes of the segments before it |
| ScatterGather.ScatteredAt | kernel/device.c:271-293 | And that is where copying in puts it, for pairwise disjoint segments |
| ScatterGather.GatherScatter | kernel/device.c:271-324 | Copying out after copying in gives the buffer back, for pairwise disjoint segments |
| ScatterGather.ScatterGathered | kernel/device.c:271-324 | Copying in what was copied out changes no byte of memory |
| ScatterGather.ScatterFrame | kernel/device.c:271-293 | Copying in changes nothing outside the segments |
| ScatterGather.ScatterKeepsOthers | kernel/device.c:271-293 | One command's data leave the segments of every other command alone |
| ScatterGather.CopyOutStep | kernel/device.c:307-322 | One turn of the copy-out loop advances memory, pointer and list together |
| ScatterGather.CopyInStep | kernel/device.c:278-291 | One turn of the copy-in loop |
| Wire.HeaderRoundTrip | user/vscsiapi.c:12-24 | Reading a printed header recovers type, direction, number, LUN, CDB length, the first cdblen CDB bytes and the buffer length; later CDB bytes stay as they were |
| Wire.HeaderLayout | kernel/device.c:39-69 | Where each field of a command is in the 31 bytes of its header, least significant byte first |
| Wire.CompletionRoundTrip | kernel/device.c:193-212 | The kernel recovers type, number, status and payload of a completion |
| Wire.CompletionLayout | user/vscsiapi.c:56-63 | Where type, number, status and data of a completion are |
| Wire.ResultMeans | kernel/device.c:237-250 | The result is the status, or the status without its three upper bits if the top one is set |
| Wire.Header | kernel/device.c:39-69 | A header has 31 bytes |
| Wire.UserScsiTask.TaskBufferToTask | user/vscsiapi.c:12-24 | The advancing pointer fills the task with the parsed header, CDB bytes past cdblen kept |
| Wire.UserScsiTask.PrepareCompletion | user/vscsiapi.c:58-61 | The first bytes of the request buffer are the completion, the data behind the head are kept |
| DataPath.HeaderCarried | user/vscsiapi.c:12-24 | Number, direction, LUN, length and decoded operation of a command survive the header, whatever was in the task |
| DataPath.CompletionCarried | kernel/device.c:193-237 | What the kernel takes out of a completion is the reply: its copy length, taken from the command, matches the target's payload |
| DataPath.ReadCarried | user/scsi.c:1300-1327 | A READ(10) in range leaves exactly the extent in the segments and nothing elsewhere; out of range memory is unchanged; the disk always is |
| DataPath.WriteCarried | user/scsi.c:1373-1414 | A write in range replaces its extent by the flat contents of the segments and keeps all other disk bytes; out of range the disk is unchanged; memory always is |
| DataPath.RunFits | include/vscsi.h:35 | For up to 256 sectors the offsets 6 and 31 keep every transfer inside BUFFER_SIZE, also for READ CAPACITY and REPORT LUNS |
| Service.GetScsiTask | user/vscsiapi.c:39-54 | Returns the oldest unclaimed command, claimed, in the task; 1 and no change if there is none; -1 without a ready session |
| Service.ReceiveScsiData | user/vscsiapi.c:65-71 | The header and data of the claimed command behind each other in the request buffer, or -1; the zero-length case gets a header |
| Service.CompleteScsiTask | user/vscsiapi.c:56-63 | The command with the task's number is finished with the task's status and data; 0 and no change if it is gone; -1 on a fault or without a ready session |
| Service.ServeOne | user/main.c:160-198 | One undisturbed turn of the loop takes the oldest unclaimed command out of the queue, runs it, and hands it back with the status and sense of the run, leaving memory and disks exactly as the data path says; without the addressed LUN the target crashes, and a data-out command without data makes it exit if no other command is unclaimed, both with the command claimed and all else untouched |
| Service.ServeIn | user/main.c:174-182 | The branch for data coming in, with the crash on a LUN that does not exist |
| Service.ServeOut | user/main.c:183-197 | The branch for data going out, with the exit after a data read that finds no header |
| Service.TurnReads | user/main.c:174-182 | End to end through all the methods: after a turn with a READ(10) in range the segments hold the addressed disk bytes, other memory and all disks are unchanged; out of range only the status says so |
| Service.TurnWrites | user/main.c:183-197 | End to end: after a turn with a write in range the addressed blocks of the addressed LUN hold the contents of the segments, all other bytes of all disks and all memory are unchanged |
| Turns.TurnSimulated | user/main.c:160-198 | After a turn on the objects there is a run of the protocol, from the state that stood for them, to a state that stands for session, remaining tasks, memory, LUNs and request buffer as they are now, whose last event is the hand-back of the command with its result and the bytes its segments hold; so turn after turn is simulated |
| Turns.TurnIsRun | user/main.c:160-198 | From every state in which a target is idle and a command waits, header, claim, fetch, run and completion in turn do what the loop does on the objects, including the exit of a starved data read and the crash on a LUN that does not exist |
| Turns.ServedQuietly | user/scsi.c:1400-1410 | If nothing is outdated in a stream and nothing of a write stays in it, file and stream change as one undisturbed run of the engine on the file |
| Turns.LandedStands | kernel/device.c:271-293 | A reply that lands in the segments of its own command leaves every other command's buffer as the protocol has it |
| Lockstep.QueueCommand | kernel/hba.c:214-276 | Called on objects that a state of the protocol stands for, scsitap_queuecommand leaves objects that the state after the step Submit stands for; the command is accepted in the one exactly if it is in the other, and otherwise it is busy or handed back as not connected |
| Lockstep.EhAbort | kernel/hba.c:188-209 | The same for scsitap_eh_abort and the step Abort |
| Lockstep.EhHostReset | kernel/hba.c:118-135 | The same for the host reset |
| Lockstep.Open | kernel/device.c:445-449 | The same for a new target that opens the control device |
| Lockstep.Register | kernel/device.c:360-393 | The same for registration, with a session that exists, a new one, or a host that cannot be added |
| Lockstep.Release | kernel/device.c:456-476 | The same for the close of a control device, registered or not |
| Lockstep.Unregister | kernel/device.c:418-432 | The same for unregistration: refused alike, or the session is gone in both, and the commands handed back are the events of the step, with their results and the bytes in their segments |
| Lockstep.ReadHeader | user/vscsiapi.c:39-46 | The same for the header read: a header in the task, none waiting, or no session and the end of the target |
| Lockstep.ReceiveTask | kernel/device.c:395-411 | The same for the claim, whichever task the number finds |
| Lockstep.ReceiveScsiData | user/vscsiapi.c:65-71 | The same for the data read, whichever task the number finds, with the zero-length read and with each failure that ends the target |
| Lockstep.RunCommand | user/main.c:174-189 | The same for the run of a command on LUNs that show what the streams of the target show: request buffer, status and length agree, the LUNs show the streams afterwards unless the stream was outdated, and the target crashes on a missing LUN in both |
| Lockstep.CompleteScsiTask | user/vscsiapi.c:56-63 | The same for the completion, whichever task the number finds: the command handed back and the event of the step have the same result and data, or there is neither |
| Scsi.CapacityAgreesWithAccess | user/scsi.c:170-193 | READ CAPACITY(10) (SBC-2, section 5.10) reports a last block L such that a non-empty extent is accepted exactly when it ends at or before L, if and only if the disk is not empty |
| Scsi.WritesAgree | user/scsi.c:1329-1465 | WRITE(6), WRITE(10) and WRITE(12) (SBC-2, sections 5.24 to 5.26) for one extent name the same write; WRITE(10) and WRITE(12) for all lengths below 2^16 |
| Scsi.ReadsDecode | user/scsi.c:1305-1306 | READ(10) (SBC-2, section 5.6), READ CAPACITY(10) and REPORT LUNS as an initiator encodes them are decoded to the address, number of blocks and allocation length meant |
| Scsi.FieldsOfCdb | user/scsi.c:1305-1306 | Which bytes of a CDB, most significant first, are the address, the number of blocks and the allocation length of each modelled opcode, and that there is no other |
| Scsi.Write6MeetsStandard | user/scsi.c:1425-1436 | The code's WRITE(6) is that of SBC-2, section 5.24, if and only if the upper address bits are zero and the length is not |
| Scsi.ReportLunsRoundTrip | user/scsi.c:32-69 | REPORT LUNS (SPC-3, section 6.21): decoding the response gives the first LUNs that fit in list order, the length field counts all of them, nothing past the allocation length is written |
| Scsi.ReportLunsStaysInside | user/scsi.c:53-66 | No byte past the allocation length is written, whatever was in the buffer, if and only if the length field fits and no entry starts one byte past the end |
| Scsi.FillLunsAt | user/scsi.c:55-65 | Every byte of the response after the loop |
| Scsi.ExtentWritten | user/scsi.c:1401-1410 | A written extent reads back and every byte outside it is as before |
| Scsi.DecodeIgnoresStaleBytes | user/vscsiapi.c:20-21 | CDB bytes past the length of the command do not change what is decoded |
| Engine.SbcRead10 | user/scsi.c:1300-1327 | For every sequence of partial reads the loop ends with the whole extent in the buffer; out of range nothing changes; no sum or count overflows |
| Engine.ReadReturns | user/scsi.c:1300-1327 | A READ(10) in range puts byte 512 * lba + k of the disk at place k of the data, and changes nothing else |
| Engine.WrittenIsRead | user/scsi.c:1300-1465 | READ(10) of an extent that a WRITE(6), WRITE(10) or WRITE(12) has written returns the written payload; the other bytes of the disk are as before |
| Engine.WriteBlocks | user/scsi.c:1395-1413 | The same for the part that the three writes have in common: the extent and nothing else is replaced |
| Engine.WriteLoop | user/scsi.c:1401-1410 | For every sequence of partial writes the loop transfers the extent exactly |
| Engine.OutOfRange | user/scsi.c:1312-1315 | The bounds check in long and int arithmetic decides whether the extent ends past the configured size |
| Engine.SbcWrite6 | user/scsi.c:1425-1465 | WRITE(6) against the decoded write |
| Engine.SbcWrite10 | user/scsi.c:1373-1414 | WRITE(10) against the decoded write |
| Engine.SbcWrite12 | user/scsi.c:1330-1370 | WRITE(12) against the decoded write |
| Engine.SbcReadCapacity10 | user/scsi.c:170-193 | The two overlapping stores leave last block and block size, big-endian, in the first eight bytes |
| Engine.SpcReportLuns | user/scsi.c:32-69 | The loop over the LUN list produces the response that the round trip is about, or rejects an allocation length above the buffer length |
| Target.SplitFiles | user/main.c:103-132 | The index loop accepts a list exactly when every field is shorter than 64 characters, every non-empty field has a size that is a multiple of 1 MiB, no file is named twice and there are at most 256; the LUN files are the non-empty fields in order; each refusal names a field that is too long, a file without size, of a wrong size or named twice, or means more than 256 files |
| Target.SplitJoin | user/main.c:103-132 | Joining plain names with commas and splitting gives the names back |
| Target.SplitAppend | user/main.c:103-112 | One more character extends the last field, one more comma opens a new one |
| Target.TargetData.AddLun | user/scsi_target.c:142-218 | The new LUN is in front of the list with its number, size and a file cut or extended to that size, or the list is as before if the file could not be opened |
| Target.TargetData.AddLuns | user/main.c:133-138 | After the loop the list is that of the files that could be opened, the last one first, at the size that was reported last |
| Target.ListedLun | user/scsi_target.c:52-56 | Looking LUN i up finds file i although the list is in reverse order, or nothing if that file could not be opened |
| Target.ListedContents | user/scsi_target.c:165-173 | LUN i has number i, the given size, and the bytes of its existing file as far as they fit, with zeros behind them; a created file holds zeros |
| Target.ReportedFiles | user/main.c:133-138 | REPORT LUNS with room for all reports exactly the numbers of the files that could be opened |
| Target.OnlyListed | user/scsi_target.c:52-56 | No number that is not the place of a file finds a LUN |
| Target.TargetData.LookUp | user/scsi_target.c:52-56 | The loop finds the first LUN with this number |
| Target.TargetData.RunScsiCommand | user/scsi_target.c:43-71 | The addressed LUN's disk and the request buffer change as the handler of the decoded command says, no other disk changes, and without that LUN nothing does |
| Target.Dispatch | user/scsi_target.c:63-69 | Every modelled opcode reaches its own handler, and every other one leaves the disk alone |

## Left out

- Commands that depend neither on the disk nor on the LUN list (inquiry, mode sense, the multimedia commands with `mmc_get_configuration`, reservations, no-ops): their status and reply are arbitrary (`Canned`); the reply data are constants. Only opcodes 0x0a, 0x25, 0x28, 0x2a, 0xa0 and 0xaa of the dispatch tables are modelled.
- The table entry without a handler is one of those, with status 2; the stand-in LUN 0 (`DUMMY_LUN_0`) has no table at all, so without the addressed LUN the source follows a null pointer and the target crashes.
- Spinlocks, wait queues, linked-list primitives, the slab cache, `scsi_add_host`, the scan work, module load and unload: a locked section is one step, a list is a sequence, allocation and host creation may fail.
- Waiting: a read of an empty queue returns 0 in the model and sleeps in the driver. Nothing is claimed about progress; a command claimed by a target that died stays queued until it is aborted or reset.
- The protocol covers one minor number; `Registry` covers the list of all sessions and shows that they do not interfere. The SCAN_HOST and FINISH_TASK ioctl numbers have no code in the driver.
- The simulation between the objects and the states of `Protocol` is proved call by call (`Lockstep`), where the calls of several targets may follow each other in any order, and for turns of the service loop (`Turns`). The LUN files of a run in lockstep are what the target's streams show when the command starts; how files and streams of several targets go together is in `Streams`. The deaths of processes have no code.
- In the protocol copies to and from a target's buffer do not fault; the faults are in `Device`.
- Runs have fewer than 256 outstanding registrations of a session; `RegistrationLimit`, `OneRegistrationTooMany` and `SessionCanBeLost` are about the 256th.
- The mid layer is assumed not to queue a pending command again, to give `request_bufflen` the length of the segments and of the CDB's transfer, at most 256 sectors, and a CDB length of at most 16 (`WellFormed`). A WRITE(6) with length 0 therefore comes with an empty buffer.
- A LUN has at most 2047 MiB, so that `lunsizeinmb*1024*1024` fits an `int`; at most 256 LUNs.
- All targets of a session serve one set of LUN files, and one run of a command on them is one step; the runs of two target processes can overlap in reality. A stream keeps a suffix of its last write, or any range it has read, until its next seek; what the C library writes out earlier, at a moment of its own, is covered only by the choice of that suffix.
- Engine.SbcRead10: `LunData.file` is what the target's own stream shows, as the reading and writing loops see it; the streams of several targets on one file are in the protocol.
- Target.TargetData.RunScsiCommand: requires that the request buffer has room for a transfer that passes the bounds check, which the handlers themselves do not test; `RunFits` proves it for every well-formed command.
- Device.ScsitapCtlWrite: when data or sense fault half way it says which result is returned and that the task stays, and for memory what `TakeCompletion` states. A message without a first byte counts as one of another type, and a status byte that faults as 0, since `get_user` stores 0 on a fault.
- Service.ServeOne: a turn is undisturbed, the number of the task it finds is its own, its segments have addresses, and other handlers answer with status 0 or 2, as all of them do; what interleaves with it is in the protocol, what faults is in the contracts of the three API methods.
- Option parsing, verbose printing, target add, find and delete, `insert_new_dvd_r`, DVD LUN types, scripts and makefiles.
