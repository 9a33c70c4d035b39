# Verified models of a trading system's concurrent and stateful core

This project models the parts of the repository whose correctness is hardest to see from reading
one function, and proves what they are for. Each group of files below follows one component;
imperative code is modelled by classes and methods with loops, each tied to a function on values,
and concurrent code by a step machine with one step per shared access.

- **The lock-free ring and the shared-memory queue** (`Ring`, `RingRefinement`, `RingSolo`,
  `RingMemory`, `Queue`, `QueueInvariant`, `QueueSteps`, `QueueRefinement`, `QueueSolo`). Any number of processes
  take single reads and compare-and-swaps in any order; a process that crashed is one that takes no
  further step. The ring refines a FIFO queue of ids, the two-ring queue refines a FIFO queue of
  messages, a message written in place is the one its sender asked room for and wrote, every node id is
  in exactly one place, and no crash blocks anyone.
- **The yijinjing journal** (`Journal`, `JournalPages`, `JournalInvariant`, `JournalSteps`,
  `JournalReading`, `JournalTheorems`, `JournalTurns`, `JournalCalls`, `JournalReader`). One writer, with crashes and
  restarts at any access, and any number of readers over pages of bytes. What is published is what the
  writer's callers asked for; readers see a gapless piece of it, across page turns; a seek ends at the
  right place, and what it skips by time has an exact condition; draining several journals is a stable merge.
- **Calendar arithmetic** (`Calendar`). The loops of `Date` and the closed form of the current date
  agree with counting days.
- **The order desk** (`Positions`, `Desk`, `DeskInvariant`, `DeskEvents`, `DeskResponses`, `DeskFlows`, `Oms`).
  Pendings and frozen funds equal what the live orders still have to do, assertions never fire,
  strategies are told right, and what is held and paid is what was traded.
- **The backtest match engine** (`MatchBook`, `MatchInvariant`, `MatchTicks`, `MatchEngine`), **message framing**
  (`Networking`), **the order book** (`OrderBook`, `OrderBookInvariant`) and **the order throttle**
  (`Throttle`).

Where the code does not do what one would expect, the project keeps the code as it is and gives the
exact condition as a lemma whose name ends in `Iff`, and mostly one with an input that fails (`Breaks`,
`Spins`, `Happens`): a rejection is booked
right exactly for untouched orders, a cancel report exactly the first time and for at most what
remains, a send exactly when the gateway takes it, the throttle keeps its limit exactly from one
period of the clock on, canceling in the match engine ends exactly for an order at the head of a level
that no bid level hides, draining journals is a stable merge exactly while no frame carries the stamp
that the loop takes for "none yet" before one that is not older, and so on. In the journal, readers
can follow exactly past every page that the writer did not crash out of (`ReadersFollowIff`): the order
of creating and closing pages protects readers from the crash, not from the restart after it, which
leaves the old page unended for ever and its readers with it (`HeldBack`); a run that does this is
constructed (`AbandonedHappens`). A seek to a time reads page headers first and opens a page later: it
skips only older frames exactly when the start stamp of that page was stored before its header was read,
or nothing later was published before the page (`SeekSkipsRightIff`); a run in which it skips frames it
should not, at a page turn, is constructed too (`SeekSkipsTooMuch`).

`dafny verify dfyconfig.toml` checks the whole project.

## Model

| member | source | states |
|---|---|---|
| LFRing.IndexIsModulo | include/ft/utils/lockfree-queue/ring.h:76-86 | the slot of a sequence number is the number modulo the count (the mask of a power-of-two count) |
| LFRing.PoppedSlotIsStale | include/ft/utils/lockfree-queue/ring.h:142-151 | a sequence number that was popped never shows in its slot again, so a late compare-and-swap on it fails |
| LFRing.FillSlot | include/ft/utils/lockfree-queue/ring.h:84-91 | a push's slot exchange succeeds only at head, keeps the window of slots and changes nothing visible |
| LFRing.EmptySlot | include/ft/utils/lockfree-queue/ring.h:145-151 | a pop's slot exchange succeeds only at tail, removes exactly the oldest visible id and frees the slot for the next round |
| LFRing.AdvanceHead | include/ft/utils/lockfree-queue/ring.h:104-119 | moving head, by whoever, makes exactly the pushed id visible at the end |
| LFRing.AdvanceTail | include/ft/utils/lockfree-queue/ring.h:164-180 | moving tail, by whoever, changes nothing visible |
| LFRing.HelpIsSafeIffFilled | include/ft/utils/lockfree-queue/ring.h:102-113 | helping at head keeps the ring sound exactly when the slot at head is filled |
| RingRefinement.InitKeepsInv | include/ft/utils/lockfree-queue/ring.h:58-69 | a fresh ring with any number of queued ids satisfies the invariant |
| RingRefinement.StepKeepsInv | include/ft/utils/lockfree-queue/ring.h:74-187 | every single access of any process keeps the invariant: no interleaving advances head over an unpushed slot or tail over an unpopped one |
| RingRefinement.TailNeverOvertakes | include/ft/utils/lockfree-queue/ring.h:137-143 | a pop never sees a tail beyond the head it loads next |
| RingRefinement.StepRefines | include/ft/utils/lockfree-queue/ring.h:74-187 | each access is one atomic FIFO effect or none: a push when head passes it, a pop at its slot exchange, "empty" only when nothing is visible |
| RingRefinement.RunKeepsInv | include/ft/utils/lockfree-queue/ring.h:74-187 | every state of every run satisfies the invariant |
| RingRefinement.RunIsFifoRun | include/ft/utils/lockfree-queue/ring.h:74-187 | every run of any number of processes is a run of the FIFO queue |
| RingSolo.SoloBound | include/ft/utils/lockfree-queue/ring.h:83-119 | with the others stopped anywhere, a push ends within 15 of its own accesses and a pop within 20 |
| RingSolo.FourRounds | include/ft/utils/lockfree-queue/ring.h:83-119 | and it starts at most four rounds of its loop |
| RingSolo.SoloPush | include/ft/utils/lockfree-queue/ring.h:83-120 | left alone from any point of a push, a process puts its id behind everything stored and everything becomes visible |
| RingSolo.SoloPop | include/ft/utils/lockfree-queue/ring.h:135-186 | left alone from any point of a pop, a process takes the oldest visible id or learns that there is none |
| RingSolo.NobodyBlocks | include/ft/utils/lockfree-queue/ring.h:74-187 | in every reachable state each process finishes its call by itself, within four rounds and 20 accesses, wherever the others crashed |
| LFRingMemory.RingMemory.constructor | include/ft/utils/lockfree-queue/ring.h:58-69 | the two filling loops build the initial ring |
| LFRingMemory.RingMemory.Push | include/ft/utils/lockfree-queue/ring.h:74-121 | the loop without interference ends as the machine does, in at most four rounds, from any state others left behind |
| LFRingMemory.RingMemory.Pop | include/ft/utils/lockfree-queue/ring.h:126-187 | the same for pop |
| QueueInvariant.OnePlace | src/utils/lockfree-queue/queue.c:13-148 | a node a process holds is in neither ring and held by nobody else |
| QueueInvariant.QueuedPlace | src/utils/lockfree-queue/queue.c:13-148 | a queued node is queued once, not free and held by nobody |
| QueueInvariant.SomePlace | src/utils/lockfree-queue/queue.c:13-148 | no node id is ever lost |
| QueueInvariant.RoomForHeld | src/utils/lockfree-queue/queue.c:41-70 | neither ring is ever over-filled |
| QueueSteps.InitKeepsInv | src/utils/lockfree-queue/queue.c:150-193 | a queue as created satisfies the invariant |
| QueueSteps.ActionKeepsInv | src/utils/lockfree-queue/queue.c:13-148 | every access inside push, pop, overwrite and the two-phase calls keeps the invariant |
| QueueSteps.CallsAreMovable | src/utils/lockfree-queue/queue.c:37-61 | a process inside a call can always take its next access: none leaves the node array |
| QueueRefinement.ActionRefines | src/utils/lockfree-queue/queue.c:13-148 | every access is one atomic event of a mailbox, or none; a sender is refused only when its message is larger than a node, while the queue is paused, or when no free node was visible at its load of head; what it commits has the size it asked for and the bytes it wrote; in overwrite mode it discards a message only after that, and is refused when no message was visible then |
| QueueRefinement.PublishRefines | src/utils/lockfree-queue/queue.c:37-45 | a message enters, intact, when head passes its slot, credited to its sender whoever helped |
| QueueRefinement.TakeRefines | src/utils/lockfree-queue/queue.c:27-32 | the oldest message leaves, to its receiver or, in overwrite mode only, to nobody |
| QueueRefinement.RescRefines | src/utils/lockfree-queue/queue.c:23-34 | an access to the ring of free nodes reserves one, restores one, or finds that none is visible |
| QueueRefinement.ReceiverSeesMessage | src/utils/lockfree-queue/queue.c:111-143 | a receiver reads in place exactly the message it was given, with its size |
| QueueRefinement.MailRunIsFifo | src/utils/lockfree-queue/queue.c:13-72 | what was published is what was removed, in order, followed by what is queued |
| QueueRefinement.RunIsMailRun | src/utils/lockfree-queue/queue.c:13-148 | every run of the queue is a run of the mailbox; without overwrite mode everything removed was received |
| QueueRefinement.CommittedAsWritten | src/utils/lockfree-queue/queue.c:74-109 | over every run: a message confirmed after LFQueue_get_push_ptr has the size that call asked for, and at each place the last byte its process wrote there |
| QueueSolo.CallsEnd | src/utils/lockfree-queue/queue.c:13-148 | wherever all other processes stopped, a push, a confirmation, and a pop that can see a message end within a number of their own accesses that depends on the size of a node only |
| JournalPages.PutBeyond | include/ft/component/yijinjing/journal/Frame.hpp:136-149 | stores at or past the end of the chain leave every published frame alone |
| JournalPages.PublishExtends | include/ft/component/yijinjing/journal/Frame.hpp:151-155 | clearing the next status and then setting the own one adds exactly this frame to the chain |
| JournalPages.WriteCompletes | src/component/yijinjing/journal/JournalWriter.cpp:48-61 | the stores of a write, in their order, make up the frame whatever the page held |
| JournalPages.PassCompletes | src/component/yijinjing/journal/JournalWriter.cpp:63-80 | the stores after a frame was filled in place make the caller's bytes a frame |
| JournalPages.FitsEverywhereIffWithinHeadroom | include/ft/component/yijinjing/journal/Page.h:102-108 | the headroom check keeps a frame inside the page wherever it lands exactly for frames up to the headroom |
| JournalSteps.PublishKeeps | include/ft/component/yijinjing/journal/Frame.hpp:151-155 | publishing keeps the invariant, for every reader at every point |
| JournalSteps.LocateKeeps | include/ft/component/yijinjing/journal/Journal.h:79-96 | finding room, or asking for the next page, keeps the invariant |
| JournalSteps.MakeKeeps | src/component/yijinjing/journal/Page.cpp:47-81 | so does every store into the header of a new page |
| JournalSteps.CloseKeeps | src/component/yijinjing/journal/Page.cpp:39-45 | so does every store that closes a page, which happens after the next one can be loaded |
| JournalReading.PageWithTimeFound | src/component/yijinjing/journal/PageUtil.cpp:105-112 | the chosen page is the last one started before the time |
| JournalReading.SoughtKeeps | src/component/yijinjing/journal/Journal.cpp:46-55 | the listing of the pages starts a seek right |
| JournalReading.ScanKeeps | src/component/yijinjing/journal/PageUtil.cpp:105-112 | one header read: a page chosen after its start stamp was stored has only older frames before it |
| JournalReading.OpenKeeps | src/component/yijinjing/journal/Journal.cpp:57-58 | opening the page found, later, starts the reader at its first frame |
| JournalReading.ReaderMoveKeeps | src/component/yijinjing/journal/Journal.cpp:41-82 | no access of a reader, seeks included, loses its page, skips or repeats a frame |
| JournalReading.ActionKeeps | src/component/yijinjing/journal/JournalWriter.cpp:48-80 | every action of writer, its caller and readers, crashes and restarts included, keeps the invariant (that it publishes what was asked for is in JournalCalls) |
| JournalCalls.EveryFrameWasAskedFor | src/component/yijinjing/journal/JournalWriter.cpp:48-80 | over every run, whatever the writer's crashes: the frames of the journal are, in order, those that calls asked for, each once, with stamp, header and data of its call |
| JournalCalls.WrittenAsAsked | src/component/yijinjing/journal/JournalWriter.cpp:48-61 | over every run: when a write_frame that no crash cut off is over, the next frame after those published before it has the clock at the call and exactly its type, flag and data |
| JournalCalls.PassedAsPlaced | src/component/yijinjing/journal/JournalWriter.cpp:63-80 | over every run: when a locateFrame and its passFrame are over, the next frame has the clock at locateFrame, the header given to passFrame, and at each place the last byte stored there |
| JournalCalls.CallEnds | src/component/yijinjing/journal/JournalWriter.cpp:48-80 | left alone, the writer comes to the end of whatever call it is in within a counted number of accesses, and publishes the frame asked for and nothing else |
| JournalCalls.WriteEnds | src/component/yijinjing/journal/JournalWriter.cpp:48-61 | write_frame ends within 19 accesses and one for each byte, page turn included, and the journal is longer by its frame |
| JournalCalls.LocateEnds | src/component/yijinjing/journal/JournalWriter.cpp:63-70 | locateFrame ends within 12 accesses with room up to the headroom, and the journal is as it was |
| JournalCalls.PassEnds | src/component/yijinjing/journal/JournalWriter.cpp:72-80 | passFrame ends within 7 accesses, and the journal is longer by the frame with its header and the bytes stored |
| JournalTheorems.EveryReaderSeesThePiece | src/component/yijinjing/journal/Journal.cpp:41-82 | in every run, a reader has seen a gapless piece of what was published, from the first page a prefix, and none took the null-page branch; one that sought to a time skipped only frames stamped before it exactly when the start stamp of its page was stored when it read the header, or nothing later was published before that page |
| JournalTheorems.ScanFinds | src/component/yijinjing/journal/PageUtil.cpp:105-112 | while the writer stores nothing, the header reads of a seek find the last page started before the time |
| JournalTheorems.SeekEndsRight | src/component/yijinjing/journal/Journal.cpp:41-62 | while the writer stores nothing, a seek opens the page it is for, if that has a header, and ends in it at the first frame not older than its time, at the end for the last, or at the start for the first, within a bounded number of accesses |
| JournalTheorems.SeekSplits | include/ft/component/yijinjing/journal/Page.h:98-100 | so all frames skipped are older than the time, and all that follow are not when the page holds one that is not |
| JournalTheorems.SeekLeavesRight | include/ft/component/yijinjing/journal/Page.h:94-100 | over every run, with the writer storing at any access: a seek passes only frames it may pass, and ends only at the end of what is published in the page at that moment or at a frame not older than its time |
| JournalTheorems.JournalIsSorted | src/component/yijinjing/journal/JournalWriter.cpp:48-70 | stamps never go back along the journal |
| JournalTheorems.PublishedFramesStay | include/ft/component/yijinjing/journal/JournalReader.h:109-112 | a published frame is found complete at its place for ever |
| JournalTheorems.WriterStaysInPage | include/ft/component/yijinjing/journal/Page.h:102-108 | every store of the writer is inside the page |
| JournalTheorems.ReaderCatchesUp | include/ft/component/yijinjing/journal/Journal.h:88-95 | by its own accesses, at most three a frame and three a page, a reader sees everything published |
| JournalTurns.EndedByClosing | src/component/yijinjing/journal/Page.cpp:39-45 | the last store of closing a page ends it, nothing else does, and it stays ended |
| JournalTurns.ActionKeepsTurns | src/component/yijinjing/journal/Journal.cpp:69-77 | the page that is being left is not ended yet, every page but the newest has its header, and readers ask for a next page only behind an ended one |
| JournalTurns.AbandonedByCrash | src/component/yijinjing/journal/Journal.cpp:69-77 | an action abandons a page exactly when it is a crash of the writer at the turn away from it, and an abandoned page stays so |
| JournalTurns.AbandonedIffCrashedAtTurn | src/component/yijinjing/journal/Journal.cpp:69-77 | over every run: a page is abandoned exactly when some crash hit the turn away from it |
| JournalTurns.HeadersOfRun | src/component/yijinjing/journal/Page.cpp:39-81 | over every run: the header of an ended page has the number of its frames, where they end, and a closing stamp no frame of it is later than; every page has its own number |
| JournalTurns.CanFollowIff | include/ft/component/yijinjing/journal/Journal.h:91-93 | a reader can follow exactly when no page from its own on is abandoned or just being left |
| JournalTurns.ReadersFollowIff | include/ft/component/yijinjing/journal/Journal.h:91-93 | over every run, page turns aside: exactly the readers past every page the writer crashed out of can follow |
| JournalTurns.SteadyReadersFollow | src/component/yijinjing/journal/Journal.cpp:69-81 | over every run without a crash, every reader can follow, page turns aside |
| JournalTurns.HeldBack | include/ft/component/yijinjing/journal/Journal.h:91-93 | over every run: from the moment a page is abandoned, a reader at or before it sees nothing published after that page until it seeks again |
| JournalTurns.AbandonedHappens | src/component/yijinjing/journal/Journal.cpp:69-77 | there is a run that ends with an abandoned page |
| JournalTurns.SeekExpiresIff | src/component/yijinjing/journal/Journal.cpp:57-64 | a seek expires the journal exactly when at its load there is still no page, or the page found is the newest and has no header yet |
| JournalTurns.ExpiredStays | src/component/yijinjing/journal/Journal.cpp:66-67 | and then it stays expired until the reader seeks again |
| JournalTurns.StampedIffStored | src/component/yijinjing/journal/Page.cpp:60 | over every run: the start stamp of a page is stored exactly by the writer's store that makes it |
| JournalTurns.FoundByHeader | src/component/yijinjing/journal/PageUtil.cpp:105-112 | over every run: the page of a seek to a time was chosen by an earlier read of its header |
| JournalTurns.SeekSkipsRightIff | src/component/yijinjing/journal/Journal.cpp:55-58 | over every run: a seek to a time that found a page after the first skipped only frames stamped before it exactly when the store of the start stamp came before the read of the header, or nothing later was published before the page |
| JournalTurns.SeekSkipsTooMuch | src/component/yijinjing/journal/Journal.cpp:55-58 | for every time there is a run in which a seek skips frames that are not older |
| JournalReader.BestIsFirstLeast | include/ft/component/yijinjing/journal/JournalReader.h:99-109 | the choice is the oldest frame on offer, of the journal added first |
| JournalReader.MergeHoldsExactly | include/ft/component/yijinjing/journal/JournalReader.h:96-116 | the merge holds exactly the frames of all journals |
| JournalReader.MergeIsStable | include/ft/component/yijinjing/journal/JournalReader.h:96-116 | strictly increasing in stamp, journal, place: each frame once, each journal in order, ties to the journal added first |
| JournalReader.DrainIsMergeIff | include/ft/component/yijinjing/journal/JournalReader.h:96-116 | draining is that merge, from every place, exactly when no frame stamped -1 stands before one of a later journal that is not older |
| JournalReader.DrainFromStartIff | include/ft/component/yijinjing/journal/JournalReader.h:96-116 | for sorted journals, draining them from their start is that merge exactly under the same condition |
| JournalReader.ReachableIsFinished | src/component/yijinjing/journal/Journal.cpp:66-82 | over every run: what the writer leaves behind between its page turns is a finished journal exactly when no crash hit a turn |
| JournalReader.Cursor.LocateFrame | include/ft/component/yijinjing/journal/Journal.h:79-96 | the next frame is found across a page turn, or the journal is used up |
| JournalReader.Cursor.PassFrame | include/ft/component/yijinjing/journal/Page.h:89-92 | the cursor moves on by exactly one frame |
| JournalReader.Reader.GetNextFrame | include/ft/component/yijinjing/journal/JournalReader.h:96-116 | the frame its loop picks is handed on, and only its journal moves |
| JournalReader.Reader.Drain | src/component/yijinjing/journal/JournalReader.cpp:93-102 | draining hands on every frame the loop picks, until none is left |
| JournalReader.GetPageNumWithTime | src/component/yijinjing/journal/PageUtil.cpp:105-112 | the loop from the last page down finds that page |
| Calendar.LeapRule | include/ft/utils/datetime.h:38-40 | the truncating remainders give the Gregorian leap rule in every year |
| Calendar.NextMonth | src/utils/datetime.cpp:12-18 | the month table and the accumulated table agree |
| Calendar.OrdinalOrders | src/utils/datetime.cpp:89-103 | dates are ordered and determined by their day number |
| Calendar.SupportedIffInRange | src/utils/datetime.cpp:89-103 | the constructor takes a calendar day exactly when its day number is in the supported range |
| Calendar.Plus | src/utils/datetime.cpp:105-151 | adding n days raises the day number by n, or throws exactly when that leaves years 1 to 9999 |
| Calendar.Minus | src/utils/datetime.cpp:153-196 | the same for subtracting |
| Calendar.PlusThenMinus | src/utils/datetime.cpp:105-196 | subtracting n undoes adding n |
| Calendar.Difference | src/utils/datetime.cpp:198-232 | the difference is the difference of day numbers, with the right sign |
| Calendar.ClosedFormCountsDays | src/utils/datetime.cpp:34-46 | for every day count within the int range the closed form is a calendar day, so many days after 1970-01-01 |
| Calendar.StepFromEpoch | src/utils/datetime.cpp:21-47 | stepping from 1970-01-01 with the addition loop reaches the same date |
| Calendar.SplitAddsUp | src/utils/datetime.cpp:30-36 | day, hour, minute and second add up to the local second, and are a time of day exactly under the stated condition |
| Positions.OpenOrClose | include/ft/utils/protocol_utils.h:20-27 | the bit test of closing offsets takes everything that is not opening |
| Positions.CostIsAverage | src/component/position/calculator.cpp:100-105 | an opening trade keeps cost times holdings equal to the money spent |
| Positions.PositionCalculator.UpdatePending | src/component/position/calculator.cpp:29-55 | the pending change, of a buy on the long side if it opens and on the short side if it closes, of a sell the other way around, under its assertions |
| Positions.PositionCalculator.UpdateTraded | src/component/position/calculator.cpp:57-114 | the change of holdings, pendings and cost by a trade, longs less shorts up for a buy and down for a sell, under its assertions |
| Positions.PositionCalculator.ModifyPosition | src/component/position/calculator.cpp:116-136 | moves holdings unless promised ones would go |
| Positions.PositionManager.UpdatePending | src/component/position/manager.cpp:37-46 | only the strategy's own pool changes, or the common one |
| Positions.PositionManager.UpdateTraded | src/component/position/manager.cpp:48-61 | the same for trades |
| Positions.PositionManager.MovePosition | src/component/position/manager.cpp:63-87 | the move happens exactly when both strategies exist and enough is free, and then in both pools |
| OrderDesk.FundsMoveOnlyIff | src/trader/risk/common/fund_risk.cpp:42-99 | cash, frozen and margin together are conserved, except exactly when a close releases more margin than there is |
| DeskInvariant.LiveShare | src/trader/risk/common/position_risk.cpp:40-58 | what a live order still has to do is part of the pending of its side |
| DeskEvents.CheckedIsProper | src/trader/oms.cpp:173-182 | an order with volume that passes the checks never closes more than there is, in whatever pool it is booked |
| DeskEvents.SendKeeps | src/trader/oms.cpp:151-207 | an order, checked or not, keeps the ledger equal to the live orders, and closing never promises more than is held |
| DeskEvents.RejectedKeeps | src/trader/oms.cpp:575-594 | so does a rejection of an untouched order |
| DeskEvents.TradedKeeps | src/trader/oms.cpp:598-644 | so does a trade |
| DeskEvents.CanceledKeeps | src/trader/oms.cpp:646-675 | so does the first cancel report, before or after the last trades |
| DeskEvents.MoveKeeps | src/component/position/manager.cpp:63-87 | so does a move between strategies |
| DeskEvents.MoveConserves | src/component/position/manager.cpp:63-87 | a move conserves total holdings of every ticker and side |
| DeskEvents.EventKeeps | src/trader/oms.cpp:151-675 | every proper event keeps the ledger |
| DeskEvents.AllAsserted | src/component/position/calculator.cpp:48-98 | in a kept ledger every counter satisfies the calculator's assertions and close pending is at most holdings |
| DeskResponses.OneMore | src/trader/oms.cpp:429-447 | a response adds to the told total, and the completed one is the last |
| DeskResponses.EventTells | src/trader/oms.cpp:551-675 | an order is live exactly while its completed response has not been sent, and every response reports the sum of the trades told so far |
| DeskResponses.EveryRunIsBooked | src/trader/oms.cpp:151-675 | both hold in every state of every run from an empty desk |
| DeskResponses.RejectKeepsIff | src/trader/risk/common/position_risk.cpp:55-58 | a rejection keeps the ledger exactly for orders without trades and cancels |
| DeskResponses.CancelKeepsIff | src/trader/oms.cpp:646-660 | a cancel report keeps the ledger exactly when it is the first, and for at most what remains |
| DeskResponses.TradeKeepsIff | src/component/position/calculator.cpp:57-95 | a trade report keeps the ledger exactly when its volume is not negative and at most what remains |
| DeskResponses.SendKeepsIff | src/trader/oms.cpp:151-207 | a send keeps the ledger exactly when a check stops it, or the order has volume, is taken by the gateway and closes no more than there is, or has no volume and is not taken |
| DeskResponses.FailedSend | src/trader/oms.cpp:190-198 | an order the gateway does not take is released without having been booked: right exactly for no volume |
| DeskResponses.EmptyOrderStays | src/trader/oms.cpp:429-443 | an order without volume is reported completed when it is accepted, and stays |
| DeskResponses.RejectAfterTradeBreaks | src/trader/risk/common/position_risk.cpp:55-58 | a rejection after half of the order traded breaks the ledger |
| DeskResponses.SecondCancelBreaks | src/trader/oms.cpp:646-660 | so does a second cancel report |
| DeskResponses.TradeBeyondBreaks | src/trader/oms.cpp:620-625 | so does a trade report beyond the volume |
| DeskResponses.FailedSendBreaks | src/trader/oms.cpp:190-198 | so does a send that fails |
| Positions.PendingSides | src/component/position/calculator.cpp:29-57 | pending of a buy is on the long side if it opens and on the short side if it closes; of a sell the other way around; nothing else changes |
| Positions.TradeMovesNet | src/component/position/calculator.cpp:59-110 | a trade moves longs less shorts by its volume, up for a buy and down for a sell, whatever the offset; both together grow by opening and shrink by closing, and the pending of its side shrinks |
| Positions.YesterdayGoesFirst | src/component/position/calculator.cpp:79-88 | closing uses up yesterday's holdings first unless it closes today's, and yesterday's are never more than what is held |
| Positions.ClosingKeepsCost | src/component/position/calculator.cpp:98-110 | closing leaves the cost price of what is still held |
| DeskFlows.MoveSides | src/component/position/manager.cpp:63-87 | a move takes longs from longs and shorts from shorts, and none that is promised |
| DeskFlows.CheckClosesWhatIsFree | src/trader/risk/common/position_risk.cpp:17-38 | a closing order passes exactly when the other side holds enough that is not promised |
| DeskFlows.CheckNeedsCash | src/trader/risk/common/fund_risk.cpp:16-40 | an opening buy or sell passes exactly when price, volume, size and the rate of its side come to at most eleven tenths of the cash |
| DeskFlows.SentIsAffordable | src/trader/risk/common/fund_risk.cpp:42-56 | a checked order that is sent takes what it needs out of the cash and leaves at least minus a tenth of it |
| DeskFlows.TradePays | src/trader/risk/common/fund_risk.cpp:58-81 | an opening trade turns what was frozen at the order's price into margin at its own, a closing one gives margin back |
| DeskFlows.HeldIsTraded | src/component/position/calculator.cpp:59-110 | over every run: longs less shorts of a ticker, over all strategies, are those at the start plus everything bought and less everything sold |
| DeskFlows.CashIsWhatWasPaid | src/trader/risk/common/fund_risk.cpp:42-95 | over every run: cash and frozen together are those at the start, less what opening trades cost and with what closing trades gave back |
| DeskFlows.ToldIsTraded | src/trader/oms.cpp:598-644 | over every run: the trades reported of an order while it was live add up to what its strategy was told, and to what the order says |
| DeskFlows.OrderIsAsSent | src/trader/oms.cpp:151-207 | over every run: a live order has the request and the strategy of the send that got its id |
| DeskFlows.SendToldWhy | src/trader/oms.cpp:173-201 | an order that is stopped hears by which check, funds first, or that sending failed; one that is sent hears nothing yet |
| DeskFlows.RejectToldWhy | src/trader/oms.cpp:575-594 | a rejected order hears that, and is gone |
| DeskFlows.ReportToldWhy | src/trader/oms.cpp:598-675 | no report of a trade or a cancel is an error |
| Oms.ProperAsserts | src/component/position/calculator.cpp:48-98 | on a sound ledger no command, report or move makes an assertion of the calculator fail, and the ledger stays sound |
| Oms.OrderManagementSystem.SendOrder | src/trader/oms.cpp:151-207 | the object changes as the desk says, whatever the gateway answers, wherever the calculator's assertions hold |
| Oms.OrderManagementSystem.OnOrderAccepted | src/trader/oms.cpp:551-573 | the same for an acceptance |
| Oms.OrderManagementSystem.OnOrderRejected | src/trader/oms.cpp:575-594 | the same for a rejection |
| Oms.OrderManagementSystem.OnOrderTraded | src/trader/oms.cpp:598-644 | the same for a trade, with the acceptance it implies |
| Oms.OrderManagementSystem.OnOrderCanceled | src/trader/oms.cpp:646-675 | the same for a cancel report |
| Oms.OrderManagementSystem.Handle | src/trader/oms.cpp:151-675 | any proper command or report on a sound ledger changes the object as the desk says and leaves the ledger sound |
| MatchBook.EstimateSplits | src/trader/gateway/backtest/match_engine/advanced_match_engine.cpp:175-219 | the estimated fills are not negative and together are the traded volume |
| MatchTicks.EstimateOneSided | src/trader/gateway/backtest/match_engine/advanced_match_engine.cpp:183-192 | with one side empty before the tick, everything traded on the other; with both empty, nothing |
| MatchTicks.EstimateTwoSided | src/trader/gateway/backtest/match_engine/advanced_match_engine.cpp:192-220 | an average at or above the ask trades asks only, one at or below the bid bids only; strictly between, asks at the ask and bids at the bid add up to the turnover, to within half a lot times the spread |
| MatchTicks.StayMovedUp | src/trader/gateway/backtest/match_engine/advanced_match_engine.cpp:253-268 | the orders of a level that the volume did not reach stay in order, each moved up by it, and no other stays |
| MatchTicks.ScanReaches | src/trader/gateway/backtest/match_engine/advanced_match_engine.cpp:246-274 | a level is reached by what the levels shown before it have not used up, and not at all when they have used up everything |
| MatchTicks.LevelAfterTick | src/trader/gateway/backtest/match_engine/advanced_match_engine.cpp:224-364 | what the orders at any price of either side are after a tick |
| MatchTicks.TradedAtOneSide | src/trader/gateway/backtest/match_engine/advanced_match_engine.cpp:209-212 | a tick traded at the ask takes out and moves no bid that the ask has not reached; one traded at the bid, no such ask |
| MatchTicks.KeyOfPrice | src/trader/gateway/backtest/match_engine/advanced_match_engine.cpp:13-15 | levels are ordered as prices are, in units of 1e-4 |
| MatchInvariant.InsertKeeps | src/trader/gateway/backtest/match_engine/advanced_match_engine.cpp:23-119 | a new order is finished at once or rests, and then the index has it at its level's price |
| MatchTicks.InsertTradesIff | src/trader/gateway/backtest/match_engine/advanced_match_engine.cpp:23-119 | a new order trades at once exactly when it is a market order with volume shown against it, or its limit keeps the price shown against it; at that price, in full, with nothing left to rest |
| MatchTicks.InsertRests | src/trader/gateway/backtest/match_engine/advanced_match_engine.cpp:34-93 | an accepted order rests last at its price, with the volume shown at the first level near that price ahead of it; a best order at the first price of its own side behind all that is shown there |
| MatchTicks.InsertEnds | src/trader/gateway/backtest/match_engine/advanced_match_engine.cpp:66-112 | every other order is rejected or canceled in full, and which |
| MatchInvariant.LeaveKeeps | src/trader/gateway/backtest/match_engine/advanced_match_engine.cpp:242-268 | orders that leave a level are reported once, in full, and leave index and level together |
| MatchInvariant.GoneIffReached | src/trader/gateway/backtest/match_engine/advanced_match_engine.cpp:253-268 | an order of a level trades exactly when the filled volume passed its queue position |
| MatchInvariant.FrontTradesFirst | src/trader/gateway/backtest/match_engine/advanced_match_engine.cpp:253-268 | never before one that is ahead of it |
| MatchInvariant.UncrossedIsNotCrossed | src/trader/gateway/backtest/match_engine/advanced_match_engine.cpp:328-364 | after the final sweeps no resting ask is at or below the bid and no resting bid at or above the ask |
| MatchInvariant.TickTouchesOneTicker | src/trader/gateway/backtest/match_engine/advanced_match_engine.cpp:168-367 | a tick leaves other tickers alone |
| MatchInvariant.CancelEndsIff | src/trader/gateway/backtest/match_engine/advanced_match_engine.cpp:121-166 | canceling ends exactly for the head of a level that no bid level at its price hides |
| MatchInvariant.CancelKeeps | src/trader/gateway/backtest/match_engine/advanced_match_engine.cpp:140-149 | and then keeps the invariant |
| MatchInvariant.SecondCancelSpins | src/trader/gateway/backtest/match_engine/advanced_match_engine.cpp:151-161 | of two bids at one price the second cannot be canceled: the scan never ends |
| MatchInvariant.HiddenCancelSpins | src/trader/gateway/backtest/match_engine/advanced_match_engine.cpp:132-161 | nor can an ask at the price of a resting bid |
| MatchEngine.PlacedEndsRight | src/trader/gateway/backtest/match_engine/advanced_match_engine.cpp:23-367 | an order that rested and left has exactly one final report, a trade of its whole volume, or the cancel of all of it if it was canceled |
| MatchEngine.AdvancedMatchEngine.Sweep | src/trader/gateway/backtest/match_engine/advanced_match_engine.cpp:328-345 | the loop takes out exactly the levels it reaches |
| MatchEngine.AdvancedMatchEngine.ScanLevel | src/trader/gateway/backtest/match_engine/advanced_match_engine.cpp:253-268 | the loop over one level keeps and trades exactly the right orders |
| MatchEngine.AdvancedMatchEngine.ScanLevels | src/trader/gateway/backtest/match_engine/advanced_match_engine.cpp:246-274 | the loop over the tick's levels |
| MatchEngine.AdvancedMatchEngine.InsertOrder | src/trader/gateway/backtest/match_engine/advanced_match_engine.cpp:23-119 | all order types, with the invariant |
| MatchEngine.AdvancedMatchEngine.OnNewTick | src/trader/gateway/backtest/match_engine/advanced_match_engine.cpp:168-367 | the levels after a tick, nothing crossed when the volume changed, only full trades reported, and no uncrossed bid touched by trades at the ask, nor such an ask by trades at the bid |
| MatchEngine.AdvancedMatchEngine.CancelOrder | src/trader/gateway/backtest/match_engine/advanced_match_engine.cpp:121-166 | the order is unknown, or leaves and is reported canceled, or the engine aborts, or the loop has not ended after any number of turns |
| MatchEngine.Replay | src/trader/gateway/backtest/match_engine/advanced_match_engine.cpp:23-367 | over any run of inserts with distinct ids, ticks and cancels that end, each order is reported finished exactly once unless it still rests; one that rested by a trade in full, unless it was canceled |
| Networking.LittleEndianRoundTrip | src/component/networking.cpp:124-127 | the length header holds the length |
| Networking.ByteAt | src/component/networking.cpp:124-127 | its first byte is the lowest |
| Networking.SendMsg | src/component/networking.cpp:118-138 | one frame a message, which reads back as that message |
| Networking.DoSendMsg | src/component/networking.cpp:190-221 | partial writes put each byte on the wire once, in order; sent exactly when all of it is |
| Networking.SendTasks | src/component/networking.cpp:329-343 | what the queued sends of a connection put on the wire: whole frames in order, and a part of the one on which it broke |
| Networking.CutAnywhere | src/component/networking.cpp:301-315 | cutting the stream anywhere changes nothing |
| Networking.StreamRoundTrip | src/component/networking.cpp:118-138 | a whole stream gives back its messages |
| Networking.ArrivedPart | src/component/networking.cpp:301-315 | exactly the messages that arrived completely are delivered, and a strict prefix of the next frame is kept |
| Networking.FrameSeen | src/component/networking.cpp:303-304 | the loop's condition sees a complete frame, or an incomplete one, or a length that wraps around and takes it out of the buffer |
| Networking.HugeHeader | src/component/networking.cpp:303-304 | a header that does the last |
| Networking.Connection.OnUvRead | src/component/networking.cpp:301-315 | the loop stays inside the buffer exactly when no sum wraps around, and then delivers the complete messages and keeps the rest |
| Networking.ReadAll | src/component/networking.cpp:294-316 | over every sequence of chunks |
| Networking.EndToEnd | src/component/networking.cpp:118-316 | through task queue, partial writes, a wire that may break and any cutting: the receiver has exactly the messages whose frames were written completely |
| OrderBook.ModifyInLevel | src/component/order_book/price_level.cpp:12-20 | the loop replaces the order and corrects the total |
| OrderBook.RemoveFromLevel | src/component/order_book/price_level.cpp:22-30 | the loop takes the order out and the argument's volume off |
| OrderBook.OrderBook.AddOrder | src/component/order_book/order_book.cpp:7-12 | the order joins the level of its price, made when missing |
| OrderBook.OrderBook.ModifyOrder | src/component/order_book/order_book.cpp:14-41 | in place at the same price, otherwise from its level to another |
| OrderBook.OrderBook.RemoveOrder | src/component/order_book/order_book.cpp:43-56 | the order leaves map and level, and an empty level goes |
| OrderBookInvariant.AddKeepsIff | src/component/order_book/order_book.cpp:7-12 | the levels stay the live orders grouped by price exactly when the order is new and has volume |
| OrderBookInvariant.ModifyKeepsIff | src/component/order_book/order_book.cpp:14-41 | exactly when the new order has volume and does not change side at its price |
| OrderBookInvariant.RemoveKeepsIff | src/component/order_book/order_book.cpp:43-56 | exactly when the order is unknown or equals the stored one |
| OrderBookInvariant.AddTwiceBreaks | src/component/order_book/order_book.cpp:7-12 | adding an order twice breaks the grouping |
| OrderBookInvariant.RemoveOtherVolumeBreaks | src/component/order_book/price_level.cpp:22-30 | so does a remove that names another volume |
| OrderBookInvariant.ModifySideBreaks | src/component/order_book/order_book.cpp:33-36 | so does a modify that changes side at its price |
| OrderBookInvariant.TotalPositive | src/component/order_book/order_book.cpp:50-55 | every total is positive, so no empty level is kept |
| OrderBookInvariant.RunKeepsGrouping | src/component/order_book/order_book.cpp:7-56 | over every run of expected changes the levels are the grouping |
| OrderBookInvariant.LevelsKeepTurn | src/component/order_book/price_level.cpp:7-30 | over every run of expected changes the orders of a level stand in the order in which they came to its price |
| OrderBookInvariant.FirstLevelIsBest | include/ft/component/order_book/order_book.h:22-29 | the first level is the best price of a live order |
| Throttle.CheckIsExactIff | src/trader/risk/common/throttle_rate_risk.cpp:31-40 | a check keeps exactly the sends of the last period, exactly when the clock is past one period or nothing is recorded |
| Throttle.CheckedInRun | src/trader/risk/common/throttle_rate_risk.cpp:26-49 | after every check of a run the queue holds exactly the sends of the last period |
| Throttle.SentIffRoom | src/trader/risk/common/throttle_rate_risk.cpp:26-55 | over every run: an order that nothing else stops is sent exactly when fewer than the limit were sent in the last period |
| Throttle.ThrottleRateRisk.CheckOrderRequest | src/trader/risk/common/throttle_rate_risk.cpp:26-49 | the popping loop and its answer |
| Throttle.ThrottleRateRisk.TrySend | src/trader/risk/common/throttle_rate_risk.cpp:26-55 | check and send together |
| Throttle.NoWindowExceedsTheLimit | src/trader/risk/common/throttle_rate_risk.cpp:26-55 | with a clock past one period, no window of one period over the whole run holds more sends than the limit |
| Throttle.LimitHoldsIff | src/trader/risk/common/throttle_rate_risk.cpp:26-55 | for all limits: every run from a time on keeps the limit in every window exactly when this time is past one period |
| Throttle.YoungClockExceedsTheLimit | src/trader/risk/common/throttle_rate_risk.cpp:31-32 | with any younger clock the bound wraps around, and one order more than the limit at one time are all sent |

## Left out

- Memory ordering: steps are sequentially consistent, and a compare-and-swap fails only when the value differs.
- Sequence numbers of the ring are natural numbers, so no process sleeps across 2^32 operations; the count is any positive number, of which the source allows powers of two.
- The sequence numbers that push and pop return: after a failed exchange the source no longer has the right value in its variable.
- Creating, dumping and loading a queue, shared memory, mapped files, sockets, the event loop, logging, databases, the market gateways: calls into other systems.
- LFRingMemory.RingMemory.Push: the object form covers one process at a time; interleavings are covered by the step machine.
- A page file is made and stretched in one step, and the files of a journal are listed in one step.
- Journal header fields of several bytes are one cell each and are stored in one access; the optional hash of a frame is not kept.
- JournalReader.Reader.GetNextFrame: the journal a frame came from is a second result, not a field; journals that are still written are covered by the step machine instead.
- The page service and expiring a journal.
- JournalTurns.SteadyReadersFollow: says nothing about the moments of a page turn, when a reader at the end of a page waits; JournalTurns.CanFollowIff does.
- `Date` comparison by packed integers, `Timedelta` with negative parts, `Datetime` arithmetic and parsing.
- Calendar.Plus: the negation of the least int is excluded, where the source overflows.
- Prices and money are exact: integer ticks in the desk and the match engine, reals for cost and average prices; rounding of floating point is not modelled.
- The prices and the identification fields of a response, which are copied.
- The order status field, which only log lines read, and risk rules other than funds, positions and throttle.
- Oms.OrderManagementSystem.SendOrder: requires the calculator's assertions, as the other handlers do; the contract is known, and the periodic overwrite of the account is not modelled.
- Floating profit and loss, direct setting of positions, and callbacks on position changes.
- MatchTicks.LevelAfterTick: for shown volumes that are not negative, and for a price shown at one level of a side at most.
- MatchEngine.AdvancedMatchEngine.OnNewTick: the list loop ends when its level is erased, levels of all tickers are in one map keyed by ticker, side and price, and volumes are not cut to int.
- Networking.Connection.OnUvRead: buffers of less than 2^63 bytes; what a loop that has left the buffer reads is not modelled, and payloads are not parsed.
- OrderBook.OrderBook.ModifyOrder: required to find the level the source dereferences without a check; prices are their decimal keys, and the level pointer inside an order is not kept.
- Strategies, tools, bar generation, target position engine, publish and subscribe, Python bindings.
