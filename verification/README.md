# Verification of the mumu fiber runtime, its data structures and its text formats

This project models the parts of the mumu C++ library whose correctness depends on several
functions working together, and proves what they are meant to guarantee.

**The fiber runtime.** `Runtime.dfy` is a transition system: any number of workers in
`Scheduler::run`, one shared task list, the contexts of every fd with the vector that finds them, the
pending-event counter, the kernel's interest set, the pending timers, and fibers that suspend in `do_io`,
`connect_with_timeout`, `sleep` or a bare yield. Each locked section is a step of its own. `EventTable.dfy`
specifies the sections on the event table, `EventTableProofs.dfy`, `EventTableRuns.dfy` and `EventTableFound.dfy`
prove what they keep over every interleaving. `RuntimeInvariant.dfy` states the invariant of the whole, `RuntimeSteps.dfy`,
`RuntimeTable.dfy` and `RuntimeKeeps.dfy` show that every step keeps it; `RuntimeTheorems.dfy`, `RuntimeRounds.dfy`
and `RuntimeFound.dfy` draw the conclusions over all runs, and `RuntimeWindows.dfy` holds the runs that go wrong.
`RuntimeConserve.dfy` accounts for every item of work, step by step; `RuntimeCalls.dfy` and `RuntimeOutcome.dfy` say when a call
of `do_io` gives up, when it waits again and whom its timeout wakes; `RuntimePicks.dfy` says who may take what from the task
list, and `RuntimeProgress.dfy` that no worker is ever stuck.
`IOManager.dfy` has the same operations as methods of an object that update its fields, each proved equal to the
step function that specifies it.

**Stateful data structures.** `TimerManager.dfy` is the ordered timer set with clock rollback and
the notification flag; `TimerRuns.dfy` runs any sequence of calls on it. `ByteArray.dfy` is the linked list of
blocks with its cursor, proved to behave as one flat run of bytes, with the read as documented and as the source
has it; `ByteCodec.dfy`, `ByteSession.dfy`, `ByteDrift.dfy` and `ByteSerialiser.dfy` add the integer, varint, zigzag
and string codecs and whole write-then-read sessions, with the exact condition under which they come back.

**Printers and parsers.** `HttpHeaders.dfy` and `HttpMachine.dfy` set `HttpRequest::dump` against the header
states of the generated request parser, `HttpSplit.dfy` says what splitting a header between two calls changes,
`HttpSession.dfy` is the receiving loop and the assembly of the body, `UrlCoding.dfy` and `Ipv6Text.dfy` are the two
text forms.

## Assumptions

- One step of the runtime is one locked section, or one Return. What the code does in several sections is several
  steps: `addEvent` is locate, grow and register (`mumu/iomanager.cc:149-159`), a timeout's `cancelEvent` is locate and
  cancel, `stopping` is three reads (`mumu/iomanager.cc:317-321`), expiry is take and queue
  (`mumu/iomanager.cc:362-368`; expired timers are taken one at a time). Return is the state write in
  `mumu/fiber.cc:260-278` or `mumu/fiber.cc:292-328`, the context switch and the bookkeeping in
  `mumu/scheduler.cc:248-261` or `mumu/scheduler.cc:279-295` together. No lock covers Return in the code;
  under a finer interleaving the claims about fibers do not hold.
- A run of the runtime ends with the first assertion that fails: a set bit is not added again, and a report whose mask
  meets the registered bits without lying within them is the last one. The code enforces neither
  (`mumu/iomanager.cc:387-420`). The results on the event table and the dispatch methods cover these cases too: they say
  exactly when the assertion fails.
- A fiber, executing or not, is scheduled by hand only when nothing else is going to resume it, and a worker's callback
  fiber only while its callback has not ended. A fiber that is so scheduled while it executes takes that entry before it
  waits in a hook, yields READY or, on a callback fiber, ends. `DoubleScheduleBreaks` and `CallbackFiberBreaks` show that
  the two rules are needed. After `stop`, only running tasks, events and timers create work.
- A timer body and its fiber share one `timer_info` over all retries of a call
  (`mumu/hook.cc:104-146`), so what is claimed is one wake-up per waiting round, not that each round waits a
  full timeout.
- The system calls are environment: `epoll_ctl` may fail where the model's kernel would accept, a
  socket read may return any part of what was asked for, allocation addresses and the clock
  are parameters. Timer arithmetic wraps at 2^64 as in the code; the claims about deadlines say where
  they need that it does not.
- `result |= b << i` in the varint decoder is written as a sum; the bits are disjoint
  (`OrAdds`). `ceil` of a floating-point quotient in `addCapacity` is the exact quotient, which holds
  below 2^53 bytes.

## Where the code departs from what it says

- `contextResize` is called with a size that was worked out before the write lock was taken
  (`mumu/iomanager.cc:149-157`), and `resize` also shrinks (`mumu/iomanager.cc:137`). `ResizeFound` and `GentleExactly` say
  exactly which sections keep every waiting context findable, `VectorCountsExactly` what that means for the pending-event
  count, and `ShrinkHidesWaiter` is a run in which a registered fiber can be reached by no call on its fd.
- Between taking expired callbacks and queueing them (`mumu/iomanager.cc:362-368`) `stopping()` can hold although a sleeper is
  still to be woken (`TakenWindow`); `StoppingFinalExactly` says when it is final.
- The three reads of `stopping()` (`mumu/iomanager.cc:317-321`) need not agree; a worker can leave `run()` while a timer is
  pending (`LeavesTooEarly`). `ExitFinalExactly` is the condition for a sound exit.
- `listExpiredCb` drops the lock between its test for an empty set and its use of `begin()` (`mumu/timer.cc:173-183`).
  `ExpireLocked` says when it then dereferences the end of the set.
- `mumu/bytearray.cc:607` moves the position a second time when a read leaves the block it
  started in at an offset. Every reading member takes `line607`, which says whether that line is there; `DriftExactly`
  is the exact condition for one read, `ByteDrifts.SessionExactly` for a whole session, and `FailingSession` a session of
  four bytes that does not come back.
- `mumu/bytearray.cc:591` follows the cursor before it looks at the size, so a read of nothing at full
  capacity follows a null pointer. Reads return the outcome `NullCursor` there; a session of straight reads ends so
  exactly when its last value is an empty string that ends at the capacity.
- The const read at `mumu/bytearray.cc:628` starts in the block of the cursor, whatever position it is given
  (`ConstReadRightInItsBlock`).
- `HttpRequest::dump` announces a body as `connect-length` (`mumu/http/http.cc:187`), while the receiver looks for
  `content-length` (`mumu/http/http_parser.cc:161-164`); `RebuiltMap` shows what the receiver's map holds, and
  `DumpedLength` that a request arrives without its body unless the sender's map has a content-length of its own.
- Every call of the parser resets its marks (`mumu/http/http11_parser.rl.cc:93-96`), so a header split inside a line can
  lose part of it; `SplitExactly` says which splits hand over the same fields as one call, and `TailHandedOver` is a
  family that does not.
- `Timer::refresh` (`mumu/timer.cc:53-69`) never notifies, unlike `reset`. Under a monotone clock it cannot bring a
  deadline forward; `TimerManager.Refresh` says exactly what it would take to break the promise.
- The comment above `UrlEncode` lists the bytes left alone without '='; the table includes it.
- The header states accept control bytes inside header names, line breaks included
  (`NameBytes`); section 3.2.6 of RFC 7230 does not.
- The buffer-full test of `recvRequest` (`mumu/http/http_session.cc:44-47`) can never fire, because an unfinished
  run takes everything.

## Model

| member | source | states |
|---|---|---|
| EventTableProofs.ResizeKeeps | mumu/iomanager.cc:136-145 | contextResize to any size keeps the table in order: contexts cut off stay with their bits and the kernel's address, new ones are empty |
| EventTableProofs.GrowForLocates | mumu/iomanager.cc:154-157 | after the write-locked section fd is found, whatever happened to the vector since the test |
| EventTableProofs.AddEventKeeps | mumu/iomanager.cc:159-198 | the locked section of addEvent: its assertion fails exactly on a set bit; it succeeds exactly when the kernel grants the call and does not know the fd by another context; counter, bits, contexts and kernel set agree afterwards |
| EventTableProofs.ClearOneKeeps | mumu/iomanager.cc:200-264 | delEvent and cancelEvent keep that agreement and succeed exactly on a set bit that the kernel lets go |
| EventTableProofs.CancelAllKeeps | mumu/iomanager.cc:266-303 | the same for cancelAll, whose final assertion holds |
| EventTableProofs.DispatchKeeps | mumu/iomanager.cc:374-421 | one report with any mask: an assertion fails exactly when the mask meets the registered bits without lying within them and the kernel grants the call; otherwise agreement is kept and each reported bit is pushed once |
| EventTableProofs.FreshReportSafe | mumu/iomanager.cc:384-394 | a report without a stale bit is safe, and an error or hang-up then stands for exactly the registered events |
| EventTableProofs.RealEventsExactly | mumu/iomanager.cc:384-394 | an event is acted on exactly when the kernel reported it, or when it reported an error or a hang-up and the event is registered |
| EventTableProofs.ReportEffect | mumu/iomanager.cc:382-420 | one report of the kernel, event by event: nothing without a registered event that it hits; the assertion fails exactly on a stale bit; otherwise each hit event loses its bit and its context, its work is queued once, READ before WRITE, and every other bit and context stays |
| EventTableProofs.AddEventConserves | mumu/iomanager.cc:182-196 | a successful addEvent adds exactly its own work to what the contexts hold |
| EventTableProofs.ClearOneConserves | mumu/iomanager.cc:227-263 | what leaves the table is queued by cancelEvent and thrown away by delEvent, nothing else |
| EventTableProofs.CancelAllConserves | mumu/iomanager.cc:292-299 | cancelAll queues exactly the work of the set bits |
| EventTableProofs.DispatchConserves | mumu/iomanager.cc:413-420 | dispatch with any mask queues exactly the work of the bits it triggers |
| EventTableRuns.RunConserves | mumu/iomanager.cc:136-303 | over any interleaving of the locked sections: work waiting before plus added is work waiting after plus queued plus thrown away, item by item |
| EventTableRuns.CountAndKernelAgree | mumu/iomanager.cc:136-303 | after any interleaving, shrinking resizes and failed assertions included, the counter is the number of set bits, the kernel knows exactly the contexts with bits, and contexts are filled exactly where their bits say |
| EventTableRuns.RegistrationFate | mumu/iomanager.cc:147-303 | every registration, however often its work is registered: its slot holds the work until the first operation that clears it, which releases exactly that work once, to the task list unless it is delEvent; without one the slot holds it still |
| EventTableRuns.FatesApart | mumu/iomanager.cc:147-303 | two registrations of one slot are released by different operations |
| EventTableRuns.ReleaseHasOrigin | mumu/iomanager.cc:147-303 | every item queued or thrown away belongs to one registration, whose slot is cleared there for the first time since |
| EventTableRuns.DispatchAssertsIffSafe | mumu/iomanager.cc:80-97 | the assertion of triggerEvent is hit exactly when a fired bit is not registered while another is |
| EventTableRuns.StaleReportBreaksDispatch | mumu/iomanager.cc:387-420 | a report of both events for an fd with one registered hits that assertion |
| EventTableFound.ResizeFound | mumu/iomanager.cc:136-145 | a resize keeps every waiting context findable by its fd exactly when it cuts off none with a bit |
| EventTableFound.AddEventFound | mumu/iomanager.cc:147-198 | a registration is findable exactly when its context is still the one at its fd, and then only the kernel can refuse it |
| EventTableFound.GentleExactly | mumu/iomanager.cc:147-303 | one section keeps every waiting context findable exactly when it cuts off no bit and registers on no context that was cut off |
| EventTableFound.GentleRunFound | mumu/iomanager.cc:147-303 | over every run of such sections every waiting context stays findable |
| EventTableFound.VectorCountsExactly | mumu/iomanager.cc:136-198 | the pending-event count is the number of bits in the vector's contexts exactly when every waiting context is findable |
| EventTableFound.ShrinkHidesWaiter | mumu/iomanager.cc:149-157 | two threads find the vector too short; the second resize cuts off the first one's registration, which stays counted and in the kernel but can be reached by no call on its fd, nor registered anew |
| TaskList.FirstEligible | mumu/scheduler.cc:206-236 | the result is the least index of an entry that is not pinned to another thread and whose fiber is not executing, or the length; `PickTakes` says the same over steps in terms of threads and states |
| RuntimeTable.TableFollows | mumu/iomanager.cc:147-421 | every step of the runtime moves the event table by at most one locked section, which fails no assertion |
| RuntimeKeeps.StepKeeps | mumu/scheduler.cc:180-316 | every step of every worker, fiber, timer body and outside thread keeps the runtime's invariant |
| RuntimeTheorems.ReachableInv | mumu/scheduler.cc:180-316 | the invariant holds in every reachable state of any number of workers |
| RuntimeConserves.StepConserves | mumu/scheduler.cc:180-316 | what one step makes and uses up, item by item: everything outstanding afterwards plus what it used is everything before plus what it made; a retry makes a timeout exactly for an unmarked call that is repeated and timed |
| RuntimeConserves.RunConserves | mumu/scheduler.cc:180-316 | over any run no item is lost and none runs twice: it is used up as often as it was made or is outstanding |
| RuntimePicks.PickTakes | mumu/scheduler.cc:205-236 | a pick takes the first entry with no pin or the worker's own and no fiber in EXEC, and keeps the others in order; it takes none exactly when there is none |
| RuntimePicks.OnlyPicksTake | mumu/scheduler.h:68-137 | no step but a pick removes or moves an entry; what is added goes to the end, pinned as its caller asked and otherwise to no thread |
| RuntimePicks.PinnedWait | mumu/scheduler.cc:206-217 | over any run in which a worker does not pick, the entries pinned to its thread stay on the list, in order and ahead of later ones |
| RuntimeProgress.NeverStuck | mumu/scheduler.cc:180-316 | in every reachable state every worker that has not left run() has an enabled step, but at a set bit in addEvent |
| RuntimeProgress.CodeMaySchedule | mumu/scheduler.h:68-137 | code may schedule a fiber by hand exactly when nothing else is going to resume it and it is not an ended callback fiber |
| RuntimeProgress.PickedRuns | mumu/scheduler.cc:243-279 | a picked fiber runs exactly when it has not ended; a callback runs on the worker's callback fiber if there is one, a timer body before anything else |
| RuntimeProgress.TakenInOrder | mumu/iomanager.cc:362-368 | the callbacks of expired timers go to the end of the list, unpinned, in the order in which they were taken |
| RuntimeProgress.ReadsBeginAnew | mumu/iomanager.cc:317-342 | whatever an idle worker does besides the three reads makes it begin them anew |
| RuntimeProgress.StateAfter | mumu/fiber.cc:260-328 | the state that each way of giving the worker back leaves, and that an ended callback fiber is ready to be used again |
| RuntimeProgress.ThreeReads | mumu/iomanager.cc:317-342 | over any run, an idle fiber that has ended saw an empty timer set, then no pending event, then a stopping scheduler with nothing active and nothing queued |
| RuntimeTheorems.ExecutingOnOneWorker | mumu/fiber.cc:167-178 | a fiber in EXEC is current on exactly one worker, also when it has been scheduled by hand while it runs |
| RuntimeTheorems.EnterAssertionsHold | mumu/scheduler.cc:243-279 | the assertions of swapIn and of Fiber::reset hold whenever a picked entry is entered |
| RuntimeTheorems.CallbackFiberReusable | mumu/scheduler.cc:262-295 | at the head of a round the callback fiber is absent, or in INIT with nothing that could resume it |
| RuntimeTheorems.SuspendedHasOneToken | mumu/hook.cc:106-147 | a fiber suspended in do_io or sleep has exactly one thing that will resume it, unless delEvent threw its registration away |
| RuntimeTheorems.NothingStranded | mumu/iomanager.cc:317-328 | when stopping() holds and no worker has expired callbacks in its hands, no fiber is running or ready, and none waits for an event or a timer |
| RuntimeTheorems.StoppingForever | mumu/scheduler.cc:327-332 | it then holds after every further run |
| RuntimeTheorems.StoppingFinalExactly | mumu/iomanager.cc:317-368 | when stopping() holds it holds for good exactly when no idle worker has taken callbacks that it has not queued |
| RuntimeTheorems.ExitFinalExactly | mumu/iomanager.cc:317-342 | an idle fiber that ends after the three reads ends with the runtime stopping for good exactly when there are still no timers, no pending events and no taken callbacks |
| RuntimeTheorems.ExitedMeansStopping | mumu/scheduler.cc:302-305 | over runs whose idle fibers all end under that condition, a worker outside run() means that the runtime is stopping for good |
| RuntimeTheorems.LeavesOnlyWithNothingToDo | mumu/scheduler.cc:205-236 | the step by which a worker leaves run() found no eligible entry |
| RuntimeTheorems.ActiveCount | mumu/scheduler.cc:232-298 | the active count is the number of workers between Pick and Return |
| RuntimeWindows.TakenWindow | mumu/iomanager.cc:362-368 | a reachable state in which stopping() holds while a sleeper's callback is in an idle worker's hands, and fails again once it is queued |
| RuntimeWindows.LeavesTooEarly | mumu/iomanager.cc:317-321 | a reachable state in which a worker has left run() by three reads that did not agree, with a sleeper's timer pending |
| RuntimeWindows.DoubleScheduleBreaks | mumu/fiber.cc:167-172 | from the start, two schedule calls for one fiber lead to a swapIn on an executing fiber |
| RuntimeWindows.CallbackFiberBreaks | mumu/scheduler.cc:262-279 | scheduling an ended callback fiber by hand leads to a worker that resets it while it executes |
| RuntimeRounds.RoundsBalance | mumu/hook.cc:106-147 | over any run: rounds begun by a fiber equal its resumptions plus one if it is in a round |
| RuntimeRounds.EachRoundResumesOnce | mumu/hook.cc:106-147 | from the start: as many resumptions as completed rounds, and an open round holds exactly one wake-up unless delEvent threw it away, whether readiness, the timeout or a close will be it |
| RuntimeCalls.StepKeepsCalls | mumu/hook.cc:104-147 | every step keeps the calls of do_io apart: one live timer_info for each, every timeout outstanding names the fd and event of its call, and a timeout in the set is the timer of its call |
| RuntimeCalls.ReachableCalls | mumu/hook.cc:104-147 | and so does every run from the start |
| RuntimeCalls.BodyMarks | mumu/hook.cc:116-124 | a timeout body marks exactly its own timer_info, if that is live and unmarked, and then cancels its own event of its own fd; no other body touches one |
| RuntimeOutcomes.MarkedExactly | mumu/hook.cc:116-124 | over any run a live timer_info is marked exactly when it was or a timeout body of its call has run |
| RuntimeOutcomes.RoundOutcome | mumu/hook.cc:135-146 | after any run a call at the end of a round gives up, leaving no timeout and no timer_info, exactly when a timeout body of it has run or it is not repeated; otherwise it waits for the same event of the same fd with the same unmarked timer_info, and with a new timeout exactly when timed |
| RuntimeOutcomes.TimeoutWakes | mumu/hook.cc:116-124 | the body of an unmarked call whose context is found queues exactly the fiber registered for that event of that fd, takes that registration away and leaves every other slot, the other event of the fd included |
| RuntimeOutcomes.TimeoutWakesItsRound | mumu/hook.cc:104-147 | after any gentle run the timeout of a call whose fiber is still registered, none having run before, wakes exactly that fiber |
| RuntimeFound.SectionsFindTheirContext | mumu/iomanager.cc:149-159 | in every reachable state growing makes room for the fd, and the context located before is one of the fd, also after the vector has been cut |
| RuntimeFound.WaiterIsReached | mumu/hook.cc:106-147 | after any run a registered fiber is in a round for the fd and event of its slot; after a gentle run a cancel by that fd and event finds it and queues exactly this fiber |
| RuntimeFound.GentleStepFound | mumu/iomanager.cc:149-157 | one step of the runtime keeps every waiting context findable exactly when its section is gentle |
| IOManagers.FdContext.TriggerEvent | mumu/iomanager.cc:80-97 | the bit is cleared, the work is queued, and the context ends up wholly empty |
| IOManagers.IOManager.ScheduleNoLock | mumu/scheduler.h:127-137 | non-empty work goes to the end of the list with the thread it was given; a tickle is asked for exactly when the list was empty |
| IOManagers.IOManager.ScheduleAll | mumu/scheduler.h:86-100 | the batch is queued in order without its empty items; one tickle at most |
| IOManagers.IOManager.PickTask | mumu/scheduler.cc:205-236 | the taken entry has no pin or the worker's own and no fiber in EXEC, every entry before it is pinned to another thread or executing, the others keep their order, and the tickle says whether an entry of another thread was passed |
| IOManagers.IOManager.TakeRound | mumu/scheduler.cc:205-305 | what the scan leads to is the Pick step |
| IOManagers.IOManager.StartRound | mumu/scheduler.cc:243-279 | what follows a pick is the Enter step |
| IOManagers.IOManager.EndRound | mumu/scheduler.cc:248-295 | what follows swapIn is the Return step |
| IOManagers.IOManager.Stop | mumu/scheduler.cc:117-145 | the flags that stop leaves are those of the SStop step |
| IOManagers.IOManager.ContextResize | mumu/iomanager.cc:136-145 | for any size the object's table becomes the specified one, cut short or filled up |
| IOManagers.IOManager.GrowFor | mumu/iomanager.cc:154-157 | the write-locked section finds a context for fd and leaves the specified table |
| IOManagers.IOManager.RegisterAt | mumu/iomanager.cc:159-198 | the locked section on any context located before: the specified table, return value and failed assertion |
| IOManagers.IOManager.AddEvent | mumu/iomanager.cc:147-198 | addEvent with nothing in between: growth and then registration on the context at fd |
| IOManagers.IOManager.DelEvent | mumu/iomanager.cc:200-232 | the object's table becomes the specified one and nothing is queued |
| IOManagers.IOManager.CancelAt | mumu/iomanager.cc:242-263 | the locked section of cancelEvent on any context located before |
| IOManagers.IOManager.CancelEvent | mumu/iomanager.cc:234-264 | the object's table and task list become the specified ones |
| IOManagers.IOManager.CancelAll | mumu/iomanager.cc:266-303 | the object's table and task list become the specified ones |
| IOManagers.IOManager.HandleReport | mumu/iomanager.cc:382-420 | one report with any mask, error or hang-up, on the context itself: it acts exactly when a registered event was reported, or any with an error, and the kernel grants the call; each such event loses its bit and has its work queued once, the other keeps both; the assertion fails exactly on a stale bit |
| IOManagers.IOManager.HandleReports | mumu/iomanager.cc:374-421 | the dispatch loop over any batch has the effect of the run of its reports, up to the assertion that fails |
| IOManagers.CallTouchesItsEvent | mumu/iomanager.cc:200-264 | delEvent and cancelEvent take the bit and context of the event they are given, throw away or queue its work, and leave the other event of the fd alone |
| IOManagers.FreshReportsSafe | mumu/iomanager.cc:374-421 | a batch without stale bits fails no assertion |
| IOManagers.RoundKeepsInv | mumu/scheduler.cc:205-305 | what the methods of a round compute from a state with the invariant is such a state again |
| IOManagers.CallKeepsInv | mumu/iomanager.cc:200-303 | so is what delEvent, cancelEvent and cancelAll compute |
| TimerManagers.ComparatorOrder | mumu/timer.cc:18-38 | the comparator puts null first, then orders by deadline and by address within one deadline: a strict total order on timers and null |
| TimerManagers.RolledBackExactly | mumu/timer.cc:235-245 | the rollback test fires exactly when the clock has gone back by more than 3600000 ms, or at all when it was within its first hour |
| TimerManagers.TimerManager.Find | mumu/timer.cc:45 | find succeeds for every timer in the set |
| TimerManagers.TimerManager.LowerBound | mumu/timer.cc:192 | everything in front is before the probe, everything from the result on is not |
| TimerManagers.TimerManager.Insert | mumu/timer.cc:223 | the new timer goes where its key belongs and the others keep their order |
| TimerManagers.TimerManager.AddLocked | mumu/timer.cc:220-233 | a notification is sent exactly when the timer becomes the first and the flag was down |
| TimerManagers.TimerManager.AddTimer | mumu/timer.cc:124-131 | the new timer is in the set; the flag's promise is kept |
| TimerManagers.TimerManager.Cancel | mumu/timer.cc:40-51 | succeeds exactly for a live timer, which leaves the set; erase never gets end() |
| TimerManagers.TimerManager.Refresh | mumu/timer.cc:53-69 | a live timer is due one period from now; without a notification the flag's promise is kept exactly when the new deadline is not before the reported one |
| TimerManagers.TimerManager.Reset | mumu/timer.cc:71-98 | the new period and deadline, or no change at all; a deadline brought forward is notified |
| TimerManagers.TimerManager.GetNextTimer | mumu/timer.cc:147-166 | the sleep until the earliest deadline; the flag goes down |
| TimerManagers.TimerManager.ExpiredEnd | mumu/timer.cc:192-196 | the cut is exactly between due and not due, however the probe's address compares |
| TimerManagers.TimerManager.ExpireLocked | mumu/timer.cc:180-211 | the write-locked section alone: it takes exactly the due timers, all after a rollback, callbacks in deadline order; recurring ones are due again at now plus period, the rest lose their callback; it faults exactly on a set that has been emptied in between, without a rollback |
| TimerManagers.TimerManager.ListExpired | mumu/timer.cc:169-212 | the same with nothing in between its two sections, which never faults; no deadline is brought forward |
| TimerRuns.Perform | mumu/timer.cc:40-233 | every call, the late section of listExpiredCb included, keeps the set ordered, its lifecycle rule and the flag's promise, and faults exactly where ExpireLocked does |
| TimerRuns.Drive | mumu/timer.cc:40-233 | over any run of calls under a monotone clock, up to a fault, no wake-up is lost: whenever a timer is due before the deadline last reported, a notification has been sent since |
| ByteArrays.BlocksFor | mumu/bytearray.cc:909 | the least number of blocks that holds the bytes |
| ByteArrays.Grown | mumu/bytearray.cc:898-929 | the capacity after growing: enough, and by less than a block too much |
| ByteArrays.ByteArray.AddCapacity | mumu/bytearray.cc:898-929 | old blocks and bytes stay, new blocks follow, a null cursor becomes the first new block |
| ByteArrays.ByteArray.PutPiece | mumu/bytearray.cc:549-572 | one copy overwrites the flat bytes at the position and leaves the cursor on its block |
| ByteArrays.ByteArray.Write | mumu/bytearray.cc:539-575 | the stored bytes are overwritten from the position on, the rest unchanged; position, size and capacity follow; the cursor invariant survives |
| ByteArrays.ByteArray.CursorAndBytes | mumu/bytearray.h:395-420 | the cursor is block position/base, null exactly at full capacity; byte i is in block i/base |
| ByteArrays.ByteArray.Read | mumu/bytearray.cc:584-613 | from any position and cursor, with or without line 607, the loop ends as Fetch says: bytes, position, cursor, missing data or a null pointer followed |
| ByteArrays.FetchAligned | mumu/bytearray.cc:584-613 | from a cursor on the block of its position: the next n stored bytes, out of range exactly when there are fewer; the position is behind them, with line 607 too far by the drift, and the cursor is on the block behind them |
| ByteArrays.ByteArray.ValidIsAligned | mumu/bytearray.h:395-420 | among the arrays a read can find, the valid ones are those whose cursor is on the block of a position within the size |
| ByteArrays.DriftExactly | mumu/bytearray.cc:607 | the drift is zero exactly for reads that start on a block boundary or end in their first block |
| ByteArrays.RemainingWraps | mumu/bytearray.h:389 | beyond the size, where line 607 can push the position, getReadSize wraps to almost 2^64 |
| ByteArrays.ByteArray.ReadAt | mumu/bytearray.cc:624-652 | what the const read returns for any position, and when it runs off the list |
| ByteArrays.ConstReadRightInItsBlock | mumu/bytearray.cc:628-633 | the const read is right exactly for positions in the cursor's block |
| ByteArrays.ByteArray.ToString | mumu/bytearray.cc:752-760 | everything stored from the position on |
| ByteArrays.ByteArray.SetPosition | mumu/bytearray.cc:659-678 | any place up to the capacity, with the cursor on its block |
| ByteArrays.ByteArray.Clear | mumu/bytearray.cc:514-525 | back to one block and nothing stored |
| ByteCodecs.WireIsHostIndependent | mumu/bytearray.cc:93-157 | the bytes written depend on the array's byte order only |
| ByteCodecs.UnwireWire | mumu/bytearray.cc:331-365 | a fixed-width read is the inverse of the write for every host and array order |
| ByteCodecs.ByteSwapTwice | mumu/endian.hh:28-54 | byteswap undoes itself |
| ByteCodecs.SignedPattern | mumu/bytearray.cc:331-365 | a signed value comes back from its two's-complement pattern |
| ByteCodecs.ZigzagBijection | mumu/bytearray.cc:160-182 | zigzag is a bijection in wrap-around arithmetic, both directions, for 32 and 64 bits |
| ByteCodecs.VarintIsLeb128 | mumu/bytearray.cc:198-234 | the bytes are unsigned LEB128, section 7.6 of DWARF 5 |
| ByteCodecs.VarintLength | mumu/bytearray.cc:198-234 | max(1, ceil(bit length / 7)) bytes |
| ByteCodecs.VarintFits | mumu/bytearray.cc:200-226 | at most 5 bytes for 32 bits and 10 for 64 |
| ByteSessions.GroupsNeeded | mumu/bytearray.cc:200-226 | the largest values of 32 and 64 bits need exactly the 5 and 10 bytes of the buffers |
| ByteSessions.GroupsAt | mumu/bytearray.cc:383-394 | the decoder loop consumes exactly the encoder's bytes and returns the value, with line 607 too |
| ByteSessions.TextAt | mumu/bytearray.cc:456-492 | when its two reads are straight, a string comes back with its length cut to the prefix; the null cursor exactly for nothing at full capacity |
| ByteSessions.DecodeAt | mumu/bytearray.cc:314-492 | every kind of value whose fields are read straight comes back where it was written |
| ByteSessions.KindRange | mumu/bytearray.cc:76-306 | the values of each kind are exactly those of its C++ type, and a text of any length |
| ByteSessions.UnzigzagExactly | mumu/bytearray.cc:168-182 | what a zigzag varint read returns: the value that was encoded, and for any bits read the value they stand for |
| ByteSessions.SessionAt | mumu/bytearray.cc:76-306 | any list of values read straight comes back in order and the reading ends where the writing did, but for an empty string at full capacity |
| ByteDrifts.Advances | mumu/bytearray.cc:314-492 | from any position and cursor, a read that returns the value takes at least the bytes that the value is written as |
| ByteDrifts.GroupsFit | mumu/bytearray.cc:383-425 | whatever the bytes, a varint read returns a value that fits the width |
| ByteDrifts.SessionExactly | mumu/bytearray.cc:76-492 | with line 607 the values come back with the position at the end exactly when every field that starts inside a block is read without leaving it, and no empty string ends the session at full capacity |
| ByteDrifts.FailingSession | mumu/bytearray.cc:607 | a byte, a two-byte integer and a byte in blocks of two: the last read throws with line 607 and succeeds without |
| ByteSerialisers.WriteVarint | mumu/bytearray.cc:198-234 | the encoder loop overwrites the stored bytes with the varint; its buffer is never overrun |
| ByteSerialisers.WriteText | mumu/bytearray.cc:264-287 | length and bytes are written as one stretch |
| ByteSerialisers.ReadVarint | mumu/bytearray.cc:383-425 | the decoder loop is the specified one on any bytes and from any cursor, missing bytes included |
| ByteSerialisers.ReadText | mumu/bytearray.cc:456-492 | the string read is the specified one, partial progress included |
| ByteSerialisers.Session | mumu/bytearray.cc:76-492 | for every block size, earlier contents and both byte orders: with the documented read the values and the end come back but for an empty string at full capacity; with the source's read exactly under the condition of SessionExactly |
| HttpHeaders.SameNameExactly | mumu/http/http.cc:83-86 | two names without a NUL are one name exactly when they are equal byte by byte but for the case of letters |
| HttpHeaders.LessExactly | mumu/http/http.cc:83-86 | one name comes before another exactly when it ends first or has the smaller byte at the first difference of the lower-cased texts |
| HttpHeaders.CaseInsensitiveOrder | mumu/http/http.cc:83-86 | the order of names is strict weak, and equivalence is equality up to case |
| HttpHeaders.GetSet | mumu/http/http.cc:117-119 | setting a header changes that header only, up to case |
| HttpHeaders.SpellingKept | mumu/http/http.cc:117-119 | a header that is there keeps its spelling, and its value unless its name is the one set |
| HttpHeaders.HttpRequest.SetHeader | mumu/http/http.cc:117-119 | the map stays ordered; an equal name keeps its spelling and takes the value |
| HttpHeaders.HttpRequest.Dump | mumu/http/http.cc:177-190 | the printed block is the connection line unless a web socket, the headers in order without connection, the length line when there is a body, the empty line and the body |
| HttpHeaders.Words | mumu/http/http.cc:178-187 | the names and values that dump adds, letter by letter |
| HttpHeaders.BlockText | mumu/http/http.cc:177-190 | the text after the request line: 'connection: close' when closing and 'connection: keep-alive' when not, unless a web socket; the kept headers; 'connect-length: ' and the decimal size when there is a body; the empty line; the body |
| HttpHeaders.LinesText | mumu/http/http.cc:180-184 | one header after another as name, colon, blank, value and line break |
| HttpHeaders.KeptExactly | mumu/http/http.cc:180-184 | exactly the headers that are not another spelling of connection are printed, all of them for a web socket |
| HttpHeaders.RebuiltMap | mumu/http/http.cc:167-191 | the map built from the printed lines answers 'close' or 'keep-alive' for connection as the request is closing or not, the size of the body for connect-length, and as the sender's map for every other name |
| HttpMachines.NameBytes | mumu/http/http11_parser.rl.cc:419-500 | from space up the machine takes exactly token bytes in names; below, all but NUL and tab |
| HttpMachines.Refused | mumu/http/http11_parser.rl.cc:419-720 | which bytes each header state refuses, exactly |
| HttpMachines.LineFeed | mumu/http/http11_parser.rl.cc:419-598 | a bare line feed does what CR LF does: it ends a value with the same field, and the header at the start of a line |
| HttpMachines.RunLine | mumu/http/http11_parser.rl.cc:419-598 | one printed line gives one field, its value without leading blanks |
| HttpMachines.RunBlock | mumu/http/http11_parser.rl.cc:419-720 | a printed block gives its fields in order and stops in the final state at the body |
| HttpMachines.HeaderRoundTrip | mumu/http/http.cc:167-191 | parsing what dump prints gives the printed pairs, less leading blanks; the pairs themselves exactly when there are none |
| HttpMachines.RequestRoundTrip | mumu/http/http_parser.cc:121-128 | parsing what dump prints rebuilds the header map, with 'close' or 'keep-alive' for connection and the size of the body for connect-length |
| HttpMachines.HeaderParser.Execute | mumu/http/http11_parser.rl.cc:87-126 | the machine's loop is the specified run, the map takes every field in turn, and the closing assertions hold |
| HttpSplits.RunIsParse | mumu/http/http11_parser.rl.cc:87-126 | the control that the receiving loop is stated over, run on this machine, ends where the machine does |
| HttpSplits.SplitExactly | mumu/http/http11_parser.rl.cc:87-126 | a header split between two calls hands over the same fields as one call exactly when the first call ends at the start of a line, between CR and LF or in a value without a name, or the second does not end the line under way |
| HttpSplits.TailHandedOver | mumu/http/http11_parser.rl.cc:93-96 | a split inside a name hands over only its tail |
| HttpSessions.UnfinishedTakesAll | mumu/http/http_parser.cc:148-153 | an unfinished error-free execute leaves nothing in the buffer |
| HttpSessions.ParseSplit | mumu/http/http11_parser.rl.cc:87-126 | splitting the input between calls does not change where the control ends |
| HttpSessions.Execute | mumu/http/http_parser.cc:148-153 | the parser's progress, and what it left moved to the front |
| HttpSessions.ReadFixSize | mumu/stream.cc:5-17 | all bytes in order however short the reads are, or how far it got and why it stopped |
| HttpSessions.WriteFixSize | mumu/stream.cc:31-43 | the peer has taken a prefix, all of it exactly when it reports success |
| HttpSessions.RecvHeader | mumu/http/http_session.cc:26-53 | the header ends where one run over the whole stream ends, for every split; what is left over is what follows |
| HttpSessions.DumpedLength | mumu/http/http.cc:167-191 | the content length read from what dump prints is that of the sender's own map, and 0 without one, whatever the body |
| HttpSessions.RecvRequest | mumu/http/http_session.cc:16-77 | for a content length n with 0 < n < 2^31 the body is exactly the n bytes behind the header; in general the low 32 bits count, and there is no body when they are 0 or have the top bit set; closed only for a reason |
| UrlCodings.EncodeTable | mumu/util.cc:383-457 | what each byte is sent as: itself when unreserved or '=', '+' for a space with the flag, else '%' and two upper-case hex digits |
| UrlCodings.DigitTable | mumu/util.cc:383-489 | which bytes are hex digits, both cases, and what they stand for |
| UrlCodings.DecodeTable | mumu/util.cc:460-489 | what each beginning is decoded to: '+', a complete escape, an incomplete one, any other byte |
| UrlCodings.UrlRoundTrip | mumu/util.cc:429-489 | decode undoes encode for every byte string, exactly unless spaces went out as pluses and do not come back |
| UrlCodings.EncodedAlphabet | mumu/util.cc:383-457 | only unreserved bytes, '=', complete escapes, and '+' for a space are emitted, sections 2.1 and 2.3 of RFC 3986 |
| UrlCodings.UrlEncode | mumu/util.cc:429-458 | the copy-on-first-change loop is the byte-by-byte definition |
| UrlCodings.UrlDecode | mumu/util.cc:460-489 | the copy-on-first-change loop is the byte-by-byte definition |
| Ipv6Texts.HexText | mumu/address.cc:478-504 | groups are lower-case hex without leading zeros |
| Ipv6Texts.PrintedFrame | mumu/address.cc:478-504 | the text stands in brackets, with the port in decimal behind a colon |
| Ipv6Texts.InsertGroups | mumu/address.cc:484-502 | the loop compresses exactly the first run of zero groups |
| Ipv6Texts.ExpandText | mumu/address.cc:478-504 | expanding the text by section 2.2 of RFC 4291 gives back the eight groups |
| Ipv6Texts.OneGap | mumu/address.cc:484-502 | there is at most one double colon |
| Ipv6Texts.PrintedInjective | mumu/address.cc:478-504 | different addresses or ports print differently |

## Left out

- Context switching, threads, locks, pipes, sockets and epoll themselves: they appear as steps, parameters or nondeterministic results. How many tickles are written to the pipe, and the idle-worker count they depend on, are not modelled.
- Fiber objects: in the runtime a fiber is its state and the place its code has reached; stacks, contexts and reference counts are not part of the model.
- The thread that creates the scheduler with `use_caller`, and the root fiber that `stop` calls.
- File descriptors that are closed while registered: the kernel forgets them without `epoll_ctl`, which the model's kernel does not.
- Deadlines in the runtime: there a timer may expire at any time. `TimerManager.dfy` has the deadlines, on its own.
- The sleep cast of `idle` beyond INT_MAX milliseconds, and the three-second cap.
- The fields of `IOManager.dfy` that hold the pending timers and the `timer_info` objects of the hooks: no method there changes them; their steps are in `Runtime.dfy` only.
- Fairness: `NeverStuck` says that a step is enabled, not that it is taken.
- `readStringVint` and `writeStringVint`: the reader takes a fixed eight-byte length where the writer put a varint (`mumu/bytearray.cc:502`, `mumu/bytearray.cc:295`).
- `getReadBuffers`, `getWriteBuffers`, `writeToFile`, `readFromFile`, floats and doubles of ByteArray; memory exhaustion by a length that was read.
- IOManagers.IOManager.AddEvent: states the call with nothing in between its sections, because a method here runs alone; `Locate`, `GrowFor` and `RegisterAt` are the sections, each stated from any table another thread may have left. `DelEvent`, `CancelEvent` and `CancelAll` likewise, over `Locate`, `DropAt`, `CancelAt` and `CancelAllAt`.
- TimerManagers.TimerManager.ListExpired: states the call with nothing in between its two sections, for the same reason; `ExpireLocked` is the second section from any state.
- Positions that line 607 pushes beyond 2^64.
- All states of the request parser outside 13 to 18 and 348, and the response parser. The XML and JSON flags, which other states set, are down.
- HttpSessions.RecvRequest: takes the content length and the callbacks' error flag as parameters, because both depend on fields that the split of the input may change, as `HttpSplits.SplitExactly` says.
- The end of the header loop when the peer closes: a read of length 0 goes round again; in the model the list of read results is finite and running out of it is the outcome Pending.
- The tree behind `std::map` and `std::set`: they are ordered sequences here.
- Logging, configuration, protobuf and JSON conversion, file utilities, servlets and server wiring.
