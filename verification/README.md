# Verified model of the ESP32 component library

This project models the parts of the library that carry real protocol, state-machine or index
arithmetic, and proves what they keep over every run. One module stands for one source file.

| module | models |
|---|---|
| `EspnowSend` | the send half of std_espnow.c: callers, writer task and radio callback sharing a lock, a completion semaphore and a status word |
| `TypedFifo` | the peek, type test and pop by which std_espnow.c and std_queue.c read one bounded FIFO |
| `EspnowFrames` | building a frame, the filter of the receive callback, and the two together with the queue |
| `KeyDebounce` | one key of std_key.c as a machine over samples, against a run-length reading of the samples |
| `KeyPolling` | the interrupt, the polling task, the event queue and all keys of std_key.c |
| `Ota` | the two slots and the boot selector of std_ota.c, with power cuts, over any number of boots |
| `Reboot` | the persistent boot counter of std_reboot.c, with power cuts and application resets |
| `Decode` | the scatter of RGB888 rectangles into a flat RGB565 image in std_decode.c |
| `MacAddress` | the in-place address conversions of include/std_port_common.h |

Concurrent code is a state machine whose steps are the source's statements: `Enabled` says when a
step can happen, `Next` what it does, `IsRun` and `Final` are whole interleavings. Beside it a
class holds the file's variables as fields, and `View` is the machine's state made of them. The
methods that follow a C function statement by statement come in two kinds:

- where other tasks, the radio or an interrupt share the variables (`Espnow.WriteData`,
  `Fifo.Recv`, `KeyTask.LoopTask` and what they call), each elementary method is proved equal to
  `Next`, and the function takes a schedule and lets the rest of the system run by it, turn by turn,
  wherever it waits or may be preempted. `Turns` says what the turns do; a wait ends at the first
  moment it need not go on, when its time is over, or with the schedule, and every turn taken from
  the schedule is a turn the others have had (`turns`);
- where only power may intervene, `Device.Boot` takes the number of durable operations that get
  done and is proved to be a run of the machine, and the methods of `Chip` record every flash state
  they pass through, so that a power cut is the end of that sequence at any place.

## What is assumed

- The radio makes one callback for each transmission it accepts, and callbacks do not overlap.
  A callback is two steps, the status write and the give. Callbacks that belong to nobody may come
  at any other time; `EspnowSend.Orderly` says when not, and two lemmas show that this is exact.
- The queues of FreeRTOS are bounded FIFOs, its binary semaphores hold one token, and each of
  their operations is one step. A message keeps its type readable after it is peeked; the lemma
  `TypedFifo.TypeTestIsOfQueuedMessageExactlyWhenAlone` says when the source itself guarantees that.
- A key is added in time when its pin reads high or the task is still to come past it; statements
  that need this say so, and `KeyPolling.AddedKeySleepsRightExactlyWhen` shows that it is exact.
- A key counts as added when its fields are written (std_key.c:130-132). Line 129 publishes a zeroed
  record before, which reads as a press with shake time 0; the task does not look at it in between.
- Every level change of a registered pin raises the interrupt; the handler may run later.
- A save to or erase of non-volatile storage happens whole or not at all, and an erase or save does
  not fail while power lasts.
- esp_ota_set_boot_partition refuses a slot whose image does not verify; there are two slots, and
  the update slot is the one not running; the bootloader runs the selected slot when it verifies.
- An allocation succeeds, also one of size 0 (an empty payload makes std_espnow.c:139 ask for that).
- The processor is little-endian and 32 bits wide; an espnow_send_t takes 16 bytes. A failed
  assertion of the source stops the task.

## Findings

- Exclusive message types make every pop exact, but they do not keep the type test on a queued
  message: a second reader may take and release the message between the peek and the test.
- With exclusive message types, a message whose type no reader asks for, once at the head, stays there
  for ever and nothing is handed out any more; with any other head some reader can still go on.
- reboot_check_task does not look at the result of its load. An application erase between the
  existence test and the load makes it save a value that counts nothing, and may cost a reset in
  that very boot: from blank storage two boots are then enough (`Reboot.GapEraseBreaksTheBound`).
  The bound of four boots a reset survives such an erase exactly when the boots already pay for
  one more reset; the counter never does. At every other moment an erase is harmless to both.
- std_ota_update does not look at the result of the download. It restarts after a failed one in
  exactly two cases: the version check passed but the server was lost before anything was erased, and
  the slot still holds the image of an earlier update (`Ota.ServerLostBeforeDownloadRestarts`); or
  what was written is a whole image and a read failed with at most one byte after it
  (`Ota.LateReadErrorRestarts`).
- std_key_add records a released key without reading the pin. The key is recorded rightly at every
  later sleep exactly when the pin reads high then or the task is still to come past it; a first key
  on a low pin is a failing input (`KeyPolling.LowPinAddedFirstSleepsWrong`).
- A stray completion does harm exactly between a call's drain and its status read.

## Model

| member | source | states |
|---|---|---|
| `EspnowSend.WriteReportsItsOwnTransmission` | std_espnow.c:106-179 | In every interleaving of any number of callers, writer task and split callbacks, in terms of the steps taken: a returned call is about the frame it was asked to write (the writer's about the one it fetched), which went to its peer or to the broadcast address; it returns 0 exactly when the radio reported status 0 for that transmission, -1 when it reported another, and the radio's error when it was refused |
| `EspnowSend.VerdictIsTheReport` | std_espnow.c:106-111 | The verdict on a transmission is the status the radio reported for it, once, and never changes |
| `EspnowSend.PostedIsWhatFits` | std_espnow.c:221-235 | The frames the send queue takes in a run are those posted while fewer than three wait |
| `EspnowSend.NoCompletionTwice` | std_espnow.c:106-164 | Completions taken, and the one still there, never exceed those given |
| `EspnowSend.StepKeepsInv` | std_espnow.c:106-179 | Every statement of every thread and of the radio keeps the invariant: one call inside the lock, at most one transmission outstanding, completion and status matching the call that waits |
| `EspnowSend.RunsExcludeAndConserve` | std_espnow.c:49-66 | In every run no two calls are inside the lock, at most one transmission awaits its callback, and the frames posted while there was room are the fetched ones in order followed by at most three waiting |
| `EspnowSend.InsideCallAlwaysAdvances` | std_espnow.c:106-111 | No completion is lost: the call holding the lock always has a next step, its own or the radio's, and a count of at most eight steps to its unlock goes down with it |
| `EspnowSend.InsideCallReturns` | std_espnow.c:151-179 | From every such moment a run of at most eight steps, of the call and the radio alone, ends with the call returned and the lock free, whatever the radio answers |
| `EspnowSend.OthersNeverSetBack` | std_espnow.c:151-179 | No step of another thread or of the radio raises that count; only a stray callback before the drain can |
| `EspnowSend.StrayIsHarmlessExactlyWhenNobodyIsExposed` | std_espnow.c:161-166 | From any reachable state a callback that belongs to no transmission leaves all later answers right if and only if no call is between its drain and its status read |
| `EspnowSend.DrainIsSafeExactlyWhenNoStrayIsHalfDone` | std_espnow.c:161 | A call may drain the semaphore without a wrong answer in any continuation if and only if no stray callback is between its status write and its give |
| `EspnowSend.Espnow.constructor` | std_espnow.c:302-316 | After std_espnow_init the lock is free, the completion semaphore empty, and the invariant holds |
| `EspnowSend.Espnow.Step` | std_espnow.c:106-179 | Each statement on the shared variables changes the fields exactly as the protocol's step function says, of which the results above are proved |
| `EspnowSend.Espnow.SendCallback` | std_espnow.c:106-111 | The callback stores the status it was given, and then gives the semaphore |
| `EspnowSend.Espnow.Block` | std_espnow.c:58-164 | A wait lets the others have their turns up to the first moment at which it need not go on, or all of them |
| `EspnowSend.Espnow.WriteData` | std_espnow.c:151-179 | The function, with an arbitrary schedule of everyone else at each wait and preemption, returns the radio's error when refused and otherwise 0 or -1 after the verdict on a transmission accepted during this very call; it gives no answer only when the whole schedule has been run and it still waits |
| `EspnowSend.Espnow.AwaitStatus` | std_espnow.c:164-169 | Waiting up to the first completion, taking it and testing the status yields an answer for the call's own transmission |
| `EspnowSend.Espnow.SendUnlock` | std_espnow.c:177-178 | When the lock is given back the result still matches the verdict on the call's transmission |
| `EspnowSend.Espnow.WriteTaskTurn` | std_espnow.c:207-218 | The writer task takes the oldest queued frame and no other; when the radio accepts, a transmission of that frame to its target was made during this turn; then it is ready for the next |
| `EspnowSend.Espnow.WriteQueued` | std_espnow.c:228-231 | A write without blocking returns 0 exactly when the queue had room, and then appended the frame; otherwise nothing changed |
| `TypedFifo.NothingLostNothingTwice` | std_espnow.c:134-148 | Whoever reads: accepted messages are the delivered ones in order followed by the queued ones, none is delivered twice, and a message the full queue refused is never delivered |
| `TypedFifo.PopIsExactExactlyWhenExclusive` | std_espnow.c:247-255 | In all runs every pop removes the very message its reader peeked and matched, and its assertion never fails, if and only if no typed reader shares the queue with a reader of its type or a take-any reader |
| `TypedFifo.TypeTestIsOfQueuedMessageExactlyWhenAlone` | std_queue.c:79-81 | In all runs the type test reads a message that is still queued if and only if no typed reader has company |
| `TypedFifo.EachReaderGetsItsTypeInOrder` | std_espnow.c:237-264 | With an exclusive table each typed reader's deliveries are the messages of its type, in order, of the prefix of the accepted stream taken so far |
| `TypedFifo.HeadIsTakenExactlyWhenClaimed` | std_queue.c:67-94 | In every run of an exclusive table the head can still be handed out if and only if some reader takes its type; otherwise, however the run goes on, it stays and nothing is handed out any more |
| `TypedFifo.ClaimerTakesHead` | std_queue.c:77-92 | A reader that takes the head's type, wherever it stands, gets it in at most six steps of its own |
| `TypedFifo.StepKeepsHeld` | std_queue.c:77-92 | With an exclusive table, a peeked message of the reader's own type stays at the head through every step of everyone else |
| `TypedFifo.StepConserves` | std_queue.c:55-94 | Each step keeps conservation, the capacity bound and the distinct arrival numbers |
| `TypedFifo.SharedTypeBreaks` | std_queue.c:79-84 | For any two readers that both take one type there is a run in which the pop after a match finds nothing |
| `TypedFifo.SecondReaderTakesPeeked` | std_espnow.c:249-251 | For any typed reader and any second reader there is a run in which the second takes the message the first still has to test |
| `TypedFifo.Fifo.Step` | std_queue.c:55-94 | Each queue operation changes the fields exactly as the protocol's step function says and keeps the invariant |
| `TypedFifo.Fifo.Recv` | std_queue.c:67-94 | Under any schedule: it waits until a message is there or its time is over, and the head at that moment is what a take-any read returns, and a typed read of that type with an exclusive table; a time-out means an empty queue after a whole wait; a message handed out is the latest delivery, to this reader; with an exclusive table its type is the wanted one, it is the one peeked, and the assertion does not fail |
| `TypedFifo.Fifo.AwaitMessage` | std_queue.c:79 | The wait passes exactly the turns up to the first message, to its time limit or to the end of the schedule |
| `TypedFifo.Fifo.PopMatched` | std_espnow.c:253 | The pop takes the head, fails exactly on an empty queue, and with an exclusive table returns the matched message |
| `TypedFifo.Fifo.LookUntilMatched` | std_queue.c:77-92 | The peek loop ends with a match, with an empty queue or with its schedule used up |
| `TypedFifo.Fifo.Empty` | std_espnow.c:285-295 | When the emptying loop returns, the queue is empty after a whole wait and every message ever accepted has been handed out |
| `TypedFifo.Fifo.Send` | std_queue.c:55-64 | It waits for room up to its time limit, then offers the message: 0 with the message at the tail, -1 with it refused by a queue that stayed full |
| `EspnowFrames.BuildSend` | std_espnow.c:181-192 | Stops exactly for payloads over 234 bytes; otherwise the frame is the type byte followed by the payload, for the given peer, and fits a packet |
| `EspnowFrames.RecvCb` | std_espnow.c:113-149 | A frame that passes the filter is offered once to the queue with its type, sender and payload; any other leaves the queue alone |
| `EspnowFrames.FramesArriveIntact` | std_espnow.c:113-149 | In every run fed by the callback, with the selected type changed at any time, each frame that passes the filter is exactly one of accepted and dropped by a full queue; accepted and dropped messages alike are such frames, in the order heard, with type, sender, channel and payload unchanged; a log frame is never among them |
| `EspnowFrames.RoundTrip` | std_espnow.c:181-264 | Built, received and read, a payload within the size check comes back with its type and every byte exactly when its type passes the filter |
| `EspnowFrames.OpenReceiveQueue` | std_espnow.c:310 | The receive queue is empty and holds three messages |
| `KeyDebounce.DebouncerReportsLongRuns` | std_key.c:52-97 | For every sample stream and shake time the reported hold times are those of the ended low runs that outlast the shake time, in order, with uint32 wrap-around |
| `KeyDebounce.FieldsMeasureLowRun` | std_key.c:64-97 | The status field says whether a low run is in progress and the time field is its hold time |
| `KeyDebounce.EndedRunIsLowRun` | std_key.c:69-81 | The places where a report may come are exactly the ends of the maximal low runs |
| `KeyDebounce.OnePressOneEvent` | std_key.c:52-62 | A press between high samples adds one event or none by its length alone, and what comes before and after reports as if it were not there |
| `KeyPolling.SleepsOnlyInAgreement` | std_key.c:99-114 | In every interleaving of edges, interrupts, polling, event sending, consumers and keys added in time, when the task sleeps with no token and no interrupt every key's status is its pin's level |
| `KeyPolling.StepKeepsAgreement` | std_key.c:31-114 | Every step keeps, when keys are added in time: a key that differs from its pin will be looked at again, counting a sample in hand as the status it is about to become |
| `KeyPolling.AddedKeySleepsRightExactlyWhen` | std_key.c:129-132 | Over all continuations, with other keys added at any time: the added key's status is its pin's level at every sleep if and only if the pin reads high when it is added or the task is still to come past it |
| `KeyPolling.LowPinAddedFirstSleepsWrong` | std_key.c:129-132 | A first key added on a pin that reads low is recorded wrongly at some later sleep |
| `KeyPolling.EdgeIsFollowedByWholeWindow` | std_key.c:99-114 | After an edge the task does not sleep before a window that began after it has ended, in which every key registered by then was shown at least 166 further samples |
| `KeyPolling.LaterWindowShowsAll` | std_key.c:104-112 | From any moment of a window to a sleep after a later one each registered key is shown at least 166 samples |
| `KeyPolling.EachKeyReportsItsLongRuns` | std_key.c:52-132 | With any keys sharing the event queue, in every interleaving: one key's events carry the type it was added with, and their hold times are the long low runs, for the shake time it was added with as uint32, of the samples it was shown; a pin never added has none |
| `KeyPolling.KeysAreAsAdded` | std_key.c:129-132 | From any moment on, a key has the type and shake time of the call that added it, and so have its events |
| `KeyPolling.WindowsNeedEdges` | std_key.c:31-112 | Windows begun and wake-ups on their way never exceed the edges on pins that have a key |
| `KeyPolling.EventsAreConsumedInOrder` | std_key.c:37-44 | Events sent are the events consumed, in order, followed by at most five that wait |
| `KeyPolling.KeyTask.PressTimeHandle` | std_key.c:52-62 | Waiting for room under any schedule of the others, it sends the event with pin, type and hold time exactly when the press outlasts the shake time, and nothing else; it fails to return only with the queue full; the key and its samples stay and the invariant holds |
| `KeyPolling.KeyTask.StatusJudge` | std_key.c:64-97 | Under any schedule the key is shown the level its pin had at the read, becomes what its machine says of it, and sends what the machine says, whatever happened to the pin, the queue and other keys meanwhile |
| `KeyPolling.KeyTask.Round` | std_key.c:106-111 | Under any schedule one round shows every key registered at its start exactly one more sample, and ends early only with the event queue full |
| `KeyPolling.KeyTask.Window` | std_key.c:103-112 | Under any schedule one window shows every key registered at its start exactly 166 more samples and keeps the earlier ones, and ends early only with the event queue full |
| `KeyPolling.KeyTask.LoopTask` | std_key.c:99-114 | The task under any schedule of edges, interrupts, consumers and timely additions: every turn is run, and it stops only where it blocks; asleep, every key's status is its pin's level, and parked, every key's events are the long low runs of its samples |
| `KeyPolling.KeyTask.KeyAdd` | std_key.c:129-132 | The record is released, with the given type and the shake time modulo 2^32, other keys stay, and the key is recorded rightly at every later sleep exactly when its pin was high or the task had still to come past it |
| `KeyPolling.KeyTask.WaitEvent` | std_key.c:37-44 | Under any schedule, the task included: it waits for an event up to its time limit and returns the oldest, or nothing when none came |
| `KeyPolling.KeyTask.AwaitRoom` | std_key.c:60 | The send blocks exactly while five events wait, for as long as the others take to make room |
| `Ota.CallIsSafeExactlyWhen` | std_ota.c:81-210 | A call keeps the selector on a valid image at every flash state it passes if and only if it is no download started while the selector names the update slot |
| `Ota.LifeIsBootableExactlyWhen` | std_ota.c:81-254 | Over any number of boots with power cut anywhere and the slots swapping roles, the selector names a valid image at every moment if and only if every download that erases finds the selector on the running slot |
| `Ota.TidyDeviceAlwaysBoots` | std_ota.c:81-210 | When no download follows a reboot call with negative delay in the same boot, the device is bootable at every moment of every such life |
| `Ota.SelectorIsRestored` | std_ota.c:100-196 | Every return path of the download, of std_ota_end and of std_ota_check_update leaves the selector on the running slot, and it is there whenever the update slot holds no valid image |
| `Ota.CheckUpdateTellsValidity` | std_ota.c:100-107 | -1 and no flash state when the update slot does not verify; otherwise the selector goes there and back, or the call aborts when the running image does not verify |
| `Ota.RebootObeysItsDelay` | std_ota.c:81-98 | -1 and no flash state when the update slot does not verify; otherwise the selector goes there, and the chip restarts unless the delay is negative |
| `Ota.NothingToDownloadTouchesNothing` | std_ota.c:119-139 | A version that is not newer, or a download without version, client or connection, returns -1 and touches no flash |
| `Ota.DownloadPasses` | std_ota.c:140-178 | On a sound device with the selector on the running slot, a download that begins erases the update slot, writes once for each read that brought bytes, and on success ends with the selector there and back |
| `Ota.FirstUpdateStateByState` | std_ota.c:81-243 | A first update and the boot after it, cut after any number of flash operations, flash state by flash state |
| `Ota.FailedDownloadRestartsExactlyWhen` | std_ota.c:199-210 | std_ota_update restarts after a failed download if and only if, when the slot was erased, what was written is whole and a read failed with at most one byte after it, and otherwise the slot held a valid image; after a successful download it always restarts, and only a restart moves the selector |
| `Ota.DownloadSucceedsExactlyWhen` | std_ota.c:110-184 | In terms of the reads: the download succeeds if and only if it erases, the image is whole after the last write, and no read failed with at most one byte after it |
| `Ota.LengthCountsAfterError` | std_ota.c:142-163 | The length the loop ends with is the bytes after the last failed read, less one if there was one |
| `Ota.ServerLostBeforeDownloadRestarts` | std_ota.c:119-210 | A device whose server is lost between the version check of std_ota_update and the version request of the download restarts into the image of the update before |
| `Ota.LateReadErrorRestarts` | std_ota.c:142-210 | A device that got a whole image and then a read error reports failure and restarts into the new image |
| `Ota.UpdateSwapsRoles` | std_ota.c:199-243 | After a completed update the next boot runs the new image and updates the slot it came from |
| `Ota.CallIsSound` | std_ota.c:100-210 | No checked selector write aborts and the running image stays valid, for every call that does not erase the selected slot |
| `Ota.HttpIsSound` | std_ota.c:110-184 | A download passes only states with running and selected image valid, ends with the selector as it was, and succeeds only with a valid image in the update slot |
| `Ota.SessionIsSafeExactlyWhen` | std_ota.c:81-210 | Within one boot, up to any cut, the selector names a valid image throughout if and only if each download reached finds it on the running slot |
| `Ota.Chip.constructor` | std_ota.c:221-243 | The boot runs the selected slot when it verifies and the other one when only that does, and changes nothing in flash; from bootable flash the device starts sound with the selector on the running slot |
| `Ota.Chip.StdOtaCheckUpdate` | std_ota.c:100-107 | Result and every flash state of the flip and flip-back |
| `Ota.Chip.Download` | std_ota.c:142-163 | The loop passes one flash state a write, and returns the length by the source's rule |
| `Ota.Chip.StdOtaHttpImage` | std_ota.c:110-184 | Result and every flash state of the download, on all its return paths |
| `Ota.Chip.StdOtaReboot` | std_ota.c:81-98 | Result and flash states: refused slot, restart, or selector left flipped |
| `Ota.Chip.StdOtaUpdate` | std_ota.c:199-210 | Result and every flash state, with the download's result dropped; without a newer version it returns -1 and leaves flash alone |
| `Ota.Chip.ServeTidy` | std_ota.c:81-210 | A whole boot of a tidy application passes only bootable states and never aborts |
| `Reboot.FourBootsForEveryReset` | std_reboot.c:13-54 | From blank storage, with power cuts anywhere and application erases and saves at any time, an erase between test and load only when one more reset is paid for, a run with n resets has at least 4n power-ons |
| `Reboot.AppEraseKeepsTheBoundExactlyWhenFunded` | std_reboot.c:16-19 | An application erase keeps that bound in every continuation if and only if it does not fall between the existence test and the load or the boots already pay for one more reset |
| `Reboot.GapEraseBreaksTheBound` | std_reboot.c:16-19 | From blank storage one erase in that gap gives a run with a reset in two boots |
| `Reboot.CounterCountsBoots` | std_reboot.c:13-54 | In every run without an erase in that gap a stored counter is the number of increments the steps saved since one wrote a zero, modulo 2^32 |
| `Reboot.SinceComesFromSteps` | std_reboot.c:16-47 | That number, counted on the steps of the run alone |
| `Reboot.CountsComeFromSteps` | std_reboot.c:13-54 | Boots are the power-ons and resets the erases among the steps |
| `Reboot.AbsentExactlyWhenWiped` | std_reboot.c:13-54 | In every run the counter is absent exactly while no step wrote under its key since the last erase |
| `Reboot.BoundIsTight` | std_reboot.c:13-54 | For every n there is a run of exactly 4n boots with n resets |
| `Reboot.ResetsExactlyFromThree` | std_reboot.c:22-34 | A boot past its incremented save goes on to erase exactly when the count is at least 3, also when an earlier boot was cut between saving 3 and erasing |
| `Reboot.AppEraseIsHarmlessExactlyOutsideTestAndLoad` | std_reboot.c:16-18 | An application erase keeps the counter right in every continuation if and only if it does not fall between the existence test and the load |
| `Reboot.StepKeepsCounting` | std_reboot.c:13-54 | Every step but an erase in the gap keeps the counter equal to the increments saved since the last zero, modulo 2^32 |
| `Reboot.StepKeepsPaid` | std_reboot.c:13-54 | Every step keeps four boots paid for each reset and the stored value paid as well, an erase in the gap included when it is paid for |
| `Reboot.OtherKeysHoldTheLastSave` | std_reboot.c:13-54 | In every run, cuts and gap erases included, every other key holds what the application last saved under it, and nothing once anything was erased |
| `Reboot.Device.Boot` | std_reboot.c:13-54 | One boot cut after any number of durable operations: the exact store it leaves, and that it is a run of the step machine |
| `Reboot.Device.Life` | std_reboot.c:13-54 | Any sequence of cut boots from blank storage keeps the bound |
| `Decode.JpegDev.OutFunc` | std_decode.c:28-46 | One callback writes exactly the pixels of its rectangle, each packed from the three bytes at its row-by-row offset, and leaves every other cell unchanged |
| `Decode.OffsetFollowsScan` | std_decode.c:31-42 | The bytes of the first pixel start at 0, those of the next three on, and those of a row three after the last pixel of the row above |
| `Decode.PixelFromItsBytes` | std_decode.c:31-42 | After the callback, cell y * w + x holds the three bytes at 3 * ((y - top) * width + x - left), packed |
| `Decode.PixelOutsideStays` | std_decode.c:31-42 | Every pixel outside the rectangle stays |
| `Decode.JpegDev.constructor` | std_decode.c:60-65 | Row pointer n points n rows into the image |
| `Decode.JpegDev.InFunc` | std_decode.c:17-24 | Over any calls, the pieces handed out or skipped have the lengths asked for and make up the data before the cursor; the buffer, if there is one, gets the last piece |
| `Decode.PieceIsNextSlice` | std_decode.c:17-24 | Hence each request gets the bytes that follow all those before it, handed out or skipped |
| `Decode.DecodeImage` | std_decode.c:52-103 | The status by what failed; the image is untouched when nothing was decoded and otherwise drawn over by all blocks in order; what the decoder read is the data piece by piece in the lengths it asked for |
| `Decode.StepsAreBlocksAndRequests` | std_decode.c:86-96 | The blocks drawn and the reads served are the decoder's outputs and inputs, each once and in order |
| `Decode.AtIsOneToOne` | std_decode.c:62-65 | Writes through distinct row pointers never collide |
| `Decode.TilesFillTheImage` | std_decode.c:28-46 | When the blocks tile the image, each pixel of the buffer is the packed pixel of the block it lies in |
| `Decode.TileOrderDoesNotMatter` | std_decode.c:28-46 | The same tiles in another order over another buffer leave the same image |
| `Decode.BufferShowsThePicture` | std_decode.c:28-46 | When the blocks carry one picture, every pixel of the buffer keeps the top bits of the picture's channels and is, shifted back, less than 8, 4 and 8 below them |
| `Decode.PictureAt` | std_decode.c:28-65 | The same in the numbers of the buffer: cell y * w + x has the picture's top five, six and five bits of red, green and blue, from the highest bit down |
| `Decode.PackKeepsTopBits` | std_decode.c:35-38 | The packed fields are disjoint: each unpacks to the top bits of its channel |
| `MacAddress.AddrAp2Sta` | include/std_port_common.h:153-155 | In place: first two bytes kept, the low number one less modulo 2^32; without a carry only the last byte changes |
| `MacAddress.AddrSta2Ap` | include/std_port_common.h:160-162 | In place: first two bytes kept, the low number one more modulo 2^32; without a carry only the last byte changes |
| `MacAddress.AddrBt2Sta` | include/std_port_common.h:167-169 | In place: first two bytes kept, the low number two less modulo 2^32; without a carry only the last byte changes |
| `MacAddress.AddrSta2Bt` | include/std_port_common.h:171-173 | In place: first two bytes kept, the low number two more modulo 2^32; without a carry only the last byte changes |
| `MacAddress.MoveCountsLastFourBytes` | include/std_port_common.h:153-173 | The number moved is the last four bytes, most significant first, modulo 2^32 |
| `MacAddress.NoCarryMovesLastByte` | include/std_port_common.h:153-173 | Without a carry out of the last byte only that byte changes |
| `MacAddress.OppositeMovesCancel` | include/std_port_common.h:153-173 | A conversion and its opposite restore every address, carries and wrap-around included |
| `MacAddress.TwoApStepsAreOneBtStep` | include/std_port_common.h:160-173 | STA to AP twice is STA to BT |
| `MacAddress.MoveIsOneToOne` | include/std_port_common.h:153-173 | Each conversion has one result for an address and different results for different addresses |
| `MacAddress.ConvertAndBack` | include/std_port_common.h:153-173 | On one buffer, AP to STA and back and STA to BT and back leave it as it was |

## Left out

- Wi-Fi, BLE, HTTP, GPIO, console and the FreeRTOS kernel: foreign calls, seen only through the contracts above.
- std_http.c, std_wifi.c, std_blufi.c, std_rdebug.c: plumbing around foreign calls.
- std_blufi_security.c: its content lies in cryptographic libraries that are not part of this model.
- std_rdebug_protocol.c: JSON helpers it rests on are not part of this model.
- std_nvs.c: a thin wrapper; the model has an atomic durable map, and the opening and closing of handles is not modelled.
- The name registry of std_queue.c (lines 20-30 and 40-50): both loops always run into the failure macro.
- The allocation of std_queue.c:57, and leaks on error paths, logging and the contents of log lines.
- A bound on the time of a typed read: a head of another type keeps the loop going for as long as its own reader does not take it, so `TypedFifo.Fifo.Recv` may end with its schedule used up instead of an answer.
- Freeing: a message's arrival number stands for its allocation, and a transmitted or refused frame is simply forgotten.
- std_espnow_add_peer, std_espnow_del_peer, std_espnow_deinit, std_espnow_get_last_status: no state beyond one foreign call or one field.
- The version texts and the OTA record kept in storage (std_ota.c:189-194, 245-253): only partition and selector effects are modelled, so std_ota_end is the same flip and flip-back as std_ota_check_update.
- A flash erase or write that fails aborts the chip; it is covered as a power cut before that operation.
- JPEG decompression: the decoder is the list of its reads and of the blocks it puts out, and `Decode.JpegDev.InFunc` requires that it asks for no more bytes than there are.
- The comment at std_decode.c:39 speaks of big-endian pixels, but the byte swap is commented out; the stored value is modelled as the code leaves it.
- Signed overflow of the boot counter is undefined in C; it is modelled as wrap-around modulo 2^32.
- Re-registering a pin that already has a key, and edges between the table entry and the hooking of the handler in std_key_add.
