# Verified models of the systems-programming programs

Five programs of the repository, modelled in Dafny 4.11 and proved for every input, every number of
threads and every interleaving.

* **The directory copier** (`Homework5/hw5.c`). One manager walks the source tree and pushes pairs of
  descriptors into a bounded ring; workers take pairs and copy bytes in chunks; a `done` flag with a
  broadcast ends the run; all threads meet at a barrier. `Tree` is the source tree and the plan of a
  walk, `Ring` the flat array (as a class updated in place and as values), `Barrier` the counting
  barrier, `Copier` the state machine: program counters of the manager and of every worker, the mutex
  and its owner, the sleepers of each condition variable, the ring, the descriptor table, the directory
  streams, the destination and the statistics. One action is one system call or one entry to, body of
  or exit from a critical section. `CopierControl`, `CopierData` and `CopierCount` are the three parts
  of the inductive invariant; `CopierMain`, `CopierWalk`, `CopierFaults`,
  `CopierTermination`, `CopierBarrier` and `CopierDescriptors` hold the theorems.
* **The order pipeline** (`Final/server.c`). Orders go from the queue through the manager, the cooks'
  stack, a cook and the oven, the delivery stack and a courier's batch. `Pipeline` is the state
  machine, `PipelineInv` conservation, status traces and semaphore accounting, `PipelineMain` the
  theorems on safety, `PipelineOrder` those on the order of service, batches and what the statuses
  tell, and `PipelineProgress` those on progress.
* **Complex matrices** (`Final/complex_matrix.c`): `MatrixAlgebra` on values, `ComplexMatrices` on
  arrays updated in place.
* **The parking lot** (`Homework3/hw3.c`): `ParkingLot`.
* **Linked queues and paging** (`Final/queue.c`, `Midterm/queue.h`, `Homework1/hw1.h`): `OrderQueues`
  and `ClientQueues` are heap lists with head, tail and size over `LinkedNodes`; `Paging` is a pair of
  programs of nested loops over reads of any size.

How the world enters the models. Every run of the copier is given the set of paths on which each of
`mkdir`, `opendir`, the two `open`s and `mkfifo` fails, so all patterns of failure are covered; `read`
returns any number of bytes from 1 to the buffer size, and may fail; `write` may fail after any
number of bytes. `open` returns any descriptor that is not in use. Directory streams deliver entries
in any order, "." and ".." among them. Condition waits may return spuriously; where a statement
needs them not to, it says so. The history fields `pushed`, `taken`, `Out.source`, `place`, `gone` and
`cancelled` are read by no step's guard.

Three properties do not hold as the programs stand. The models keep the programs as they are, and
each property has the exact condition under which it does hold.

* The wait in `barrier_wait` is under an `if`, not in a loop, and POSIX.1 lets it return spuriously.
  `CopierBarrier.BarrierHoldsExactly`: in a run, whatever the configuration, nobody is ever past the
  wait while somebody has still to enter if and only if the wait never returns spuriously.
  `CopierBarrier.EarlyExit`: from every configuration one such return lets any one thread exit while no
  other has entered. The contents of the destination, deadlock freedom and termination do not depend
  on it.
* `displayPage` counts the offset of a page from the start of the read in which the page starts, not
  from the start of the file. How a file is cut into reads is an input of the model.
  `Paging.SeeksRightExactly`: the program seeks to the page if and only if the page starts in the first
  read (or at the start of the file), which for full reads means at byte 1024 or before.
  `Paging.ShowsPageExactly` says the same of the text shown, for pages whose first line does not also
  end an earlier line; `Paging.LatePageIsWrong` is a file for which the wrong line is shown.
* The cooks' and couriers' `tasks` arrays have 50 places and no bounds check.
  `PipelineMain.FitsExactly`: they are large enough for all runs with at most n undelivered orders at a
  time if and only if n is at most 50.

## Model

| member | source | states |
|---|---|---|
| Ring.Buffer.constructor | Homework5/hw5.c:45-70 | a new buffer is valid, empty, of the given size, with all statistics 0 and `done` unset |
| Ring.Buffer.Put | Homework5/hw5.c:145-148 | the in-place insertion appends one pair to the queue it stands for and changes nothing else of the shared state |
| Ring.Buffer.Take | Homework5/hw5.c:216-219 | the in-place removal returns both descriptors of the oldest pair and leaves the other pairs in order |
| Ring.PushRefines | Homework5/hw5.c:145-148 | on the flat array, stepping by two and wrapping around, a push below capacity is an append of one pair; no queued pair is overwritten |
| Ring.PopRefines | Homework5/hw5.c:216-219 | a pop removes exactly the oldest pair; source and destination are never taken from different pairs |
| Ring.TailFromHead | Homework5/hw5.c:57-60 | tail = (head + 2 count) mod (2 max_size) in every valid buffer |
| Tree.PlannedIffPresent | Homework5/hw5.c:105-166 | the recursive walk plans a file with its bytes, a directory or a FIFO at a path if and only if the path leads to it through directories that could be made and listed, and it can be created |
| Tree.LeadsEverywhere | Homework5/hw5.c:104-108 | without faults the walk is led to everything that is in the tree but what is below the names "." and "..", hidden files included |
| Tree.PlannedOnce | Homework5/hw5.c:105-166 | with distinct names in each directory no destination path is created twice, be it as a file, a directory or a FIFO, or as two of these |
| Barrier.StepInv | Homework5/hw5.c:169-180 | below the total the counter is the number of threads that have entered; once all have, it is 0 and nobody sleeps, spurious wakeups included |
| Barrier.ClosedExactly | Homework5/hw5.c:169-180 | from a state in which nobody is past the wait too early, a step leads to one in which somebody is if and only if it is a spurious wakeup |
| Barrier.NotTheLast | Homework5/hw5.c:171-177 | a thread that comes while another is still to enter has to wait |
| Barrier.Progress | Homework5/hw5.c:169-180 | once all threads have arrived some thread can move until all are out |
| Barrier.StepWork | Homework5/hw5.c:169-180 | every step in the barrier, the broadcast included, lowers a measure |
| CopierControl.ControlStep | Homework5/hw5.c:97-243 | every step keeps: one owner of the mutex; pairs queued imply a worker awake in its loop; the manager asleep implies a full ring; a worker asleep implies `done` unset; a worker past its loop implies `done` and an empty ring |
| CopierData.FilesStep | Homework5/hw5.c:97-243 | every step keeps, for each opened file: untouched while with the manager or queued, a prefix plus what the worker holds while it is copied by exactly one worker, then identical or marked broken; every open descriptor is held by somebody |
| CopierCount.ConservedStep | Homework5/hw5.c:97-167 | what has been created, what the manager is creating and what the open streams have still to deliver always add up, in order, to the plan of the tree |
| CopierCount.CountedStep | Homework5/hw5.c:153-163 | the statistics lag behind pushed files, made directories, made FIFOs and written bytes by exactly what is between two critical sections |
| CopierMain.Invariant | Homework5/hw5.c:245-294 | all of these hold in every state of every run from `main` |
| CopierMain.HandedOverOnce | Homework5/hw5.c:140-222 | the pairs taken, in order, followed by those in the ring are the pairs pushed; the ring never exceeds its size |
| CopierMain.RingStaysEmpty | Homework5/hw5.c:211-214 | once any worker has left its loop the ring stays empty and nothing is pushed or taken ever after |
| CopierMain.EndToEnd | Homework5/hw5.c:182-243 | when all threads have exited, under every schedule and every pattern of failures, the destination is exactly the plan, each file identical or a prefix with a failed read or write, nothing is open or queued, and the statistics agree |
| CopierMain.DestinationUnderFaults | Homework5/hw5.c:97-167 | whatever fails, a path has been created if and only if it leads to something through directories that could be made and listed, and its own calls succeeded |
| CopierMain.DestinationEqualsSource | Homework5/hw5.c:97-243 | without failures the destination has exactly the files with their bytes, directories and FIFOs of the source tree, hidden ones included and nothing at or below "." and "..", each path once if names are distinct in each directory, and the four statistics are their numbers and the sum of sizes |
| CopierWalk.DirectoriesFirst | Homework5/hw5.c:115-164 | in every reachable state whatever has been created lies in a directory that has been created |
| CopierWalk.BufferBound | Homework5/hw5.c:224-233 | a worker never has more bytes to write or to count than its buffer holds, nor none |
| CopierFaults.DamageNeedsFailure | Homework5/hw5.c:224-233 | in the end every file is a prefix of its source, and no more files differ than there were failing reads and writes |
| CopierFaults.OnlyFullWritesCount | Homework5/hw5.c:226-233 | in the end the byte total is the bytes of the writes that went through in full, and no others |
| CopierMain.NoDeadlock | Homework5/hw5.c:140-222 | in every reachable state in which some thread has not exited, a step that is not a spurious wakeup is enabled |
| CopierBarrier.BarrierHoldsExactly | Homework5/hw5.c:169-180 | in a run nobody is ever past the barrier's wait while somebody has still to enter if and only if the wait never returns spuriously in it |
| CopierBarrier.FirstExit | Homework5/hw5.c:169-199 | in such a run the first exit comes after all threads have entered and every file has been copied and closed |
| CopierBarrier.EarlyExit | Homework5/hw5.c:172-178 | for every tree, pattern of failures, number of workers and buffer size, one spurious return lets any one thread exit while no other has entered the barrier |
| CopierTermination.StepTerminates | Homework5/hw5.c:97-243 | every step of every thread, going to sleep and being woken by a signal included, lowers a measure over tree, bytes, ring, sleepers and barrier |
| CopierTermination.SpuriousCosts | Homework5/hw5.c:141-143 | a spurious wakeup raises it by at most 2 |
| CopierTermination.EveryRunIsFinite | Homework5/hw5.c:245-294 | a run is no longer than a bound computed from the tree and the number of workers, plus three steps for each spurious wakeup |
| CopierTermination.AlwaysCompletes | Homework5/hw5.c:182-243 | from every reachable state the run can go on to one in which all threads have exited and everything is delivered |
| CopierDescriptors.OneOwnerEach | Homework5/hw5.c:127-148 | each open descriptor belongs to exactly one of manager, ring place and worker, and nobody holds a closed one |
| CopierDescriptors.ClosesAreOpen | Homework5/hw5.c:235-236 | every close names an open descriptor, every open one not in use, and no other step changes which are open |
| CopierDescriptors.ClosedAsOftenAsOpened | Homework5/hw5.c:127-236 | in every run each descriptor has been closed as often as it was opened, or once less while it is open; exactly as often once all threads have exited, even when opens, reads or writes have failed |
| CopierDescriptors.DescriptorBound | Homework5/hw5.c:127-148 | at most 2 (max_size + workers + 1) descriptors are open |
| PipelineInv.KeepAndDrop | Final/server.c:104-117 | a cancellation splits the queue into exactly the orders with the id and exactly the rest, without repeats |
| PipelineMain.KeepInOrder | Final/server.c:104-117 | both parts keep the order of the queue: the split distributes over concatenation |
| PipelineMain.CancelIsRemoval | Final/server.c:99-120 | the cancelling step does to the tickets what the in-place removal does to the linked list of the orders |
| PipelineOrder.CancelsById | Final/server.c:256-287 | orders carry the ids they arrived with; a cancellation takes exactly the waiting orders with its id out of the queue |
| PipelineOrder.NobodyOvertakes | Final/server.c:284-301 | in every reachable state the queue is in the order of acceptance, and whoever was accepted after a waiting order is waiting too or cancelled |
| PipelineOrder.ManagerTakesOldest | Final/server.c:297-302 | the manager takes the oldest waiting order |
| PipelineOrder.CookTakesNewest | Final/server.c:136-138 | a cook takes the newest order of the stack and leaves the older ones |
| PipelineOrder.DeliveryStackIsStack | Final/server.c:186-217 | the delivery stack gains only the order a cook hands over, on top, and loses only from the top |
| PipelineOrder.PickUp | Final/server.c:212-220 | a courier picks up if and only if there are three orders, or one and it has timed out; it takes the newest three, or all, newest first, and leaves the rest |
| PipelineOrder.OneAfterTheOther | Final/server.c:231-250 | it tells and hands over its batch in that order, one at a time |
| PipelineOrder.BatchBound | Final/server.c:212-217 | in every reachable state no courier has more than three orders |
| PipelineOrder.SignalWakesOne | Final/server.c:190 | a cook's signal ends the wait of exactly one courier, if any waits |
| PipelineOrder.AtMost | Final/server.c:159-180 | never more than six orders hold oven capacity, three cooks a tool, three couriers the road |
| PipelineOrder.CookStatuses | Final/server.c:147-184 | what has been sent for an order with a cook, point by point |
| PipelineOrder.CourierStatuses | Final/server.c:227-250 | what has been sent for an order with a courier, point by point |
| PipelineMain.SemaphoresAccountedFor | Final/server.c:159-180 | capacity permits plus holders are 6, tool permits plus holders 3, delivery permits plus couriers on the road 3; the task index is the posted tasks plus cooks between wait and pop plus one if the manager has yet to post |
| PipelineMain.EachOrderIsSomewhereOnce | Final/server.c:127-309 | in every reachable state each accepted order is at exactly one of queue, manager, cooks' stack, one cook, delivery stack, one courier, delivered, cancelled, and listed there once |
| PipelineMain.StatusesInOrder | Final/server.c:147-249 | what has been sent for an order is the prefix of the five statuses that belongs to its place; all five exactly if it is delivered, none if it waits or was cancelled |
| PipelineMain.CookAlwaysFindsTask | Final/server.c:132-137 | a cook past `sem_wait` always finds a task, so the else branch is dead |
| PipelineMain.StacksFit | Final/server.c:306 | neither stack holds more than the live orders, so with at most 50 of them no write passes the end of an array |
| PipelineMain.StackCanFill | Final/server.c:306 | for every n a reachable state has n orders, all on the cooks' stack |
| PipelineMain.DeliveryStackCanFill | Final/server.c:188 | for every n a reachable state has n orders, all on the delivery stack |
| PipelineMain.FitsExactly | Final/server.c:188-306 | each array is large enough for every run with at most n live orders at a time if and only if n is at most 50 |
| PipelineProgress.StepIsProgress | Final/server.c:127-309 | every server step leaves less work, except a courier's poll, which leaves the work alone and brings a look at a delivery stack with orders closer |
| PipelineProgress.OnlySoMuchToDo | Final/server.c:127-309 | in every run, under any schedule, with any arrivals, cancellations and spurious wakeups, the server's steps other than polls of an empty delivery stack are bounded linearly by the arrivals and spurious wakeups |
| PipelineProgress.SomethingMoves | Final/server.c:159-252 | while an order is neither delivered nor cancelled, a step other than such an idle poll is enabled and gets closer: the nested oven semaphores and the tool taken again while holding capacity cannot deadlock |
| PipelineProgress.EveryOrderFinishes | Final/server.c:127-309 | without further arrivals some run leads from every reachable state to one in which every order is delivered or cancelled |
| PipelineProgress.EveryOrderIsServed | Final/server.c:127-309 | in every infinite execution that is fair to each thread and in which orders stop arriving, there comes a time when every accepted order is delivered, with all five statuses sent, or cancelled |
| MatrixAlgebra.ProductAssociative | Final/complex_matrix.c:43-59 | (AB)C = A(BC) for all conformable sizes |
| MatrixAlgebra.TransposeOfProduct | Final/complex_matrix.c:33-59 | the transpose of AB is the product of the transposes in the other order |
| MatrixAlgebra.GramSymmetric | Final/complex_matrix.c:62-66 | the transpose of M times M is symmetric |
| MatrixAlgebra.ImaginaryUnit | Final/complex_matrix.c:51-52 | i times i is -1 |
| MatrixAlgebra.NormMultiplies | Final/complex_matrix.c:51-52 | the squared norm of a product is the product of the squared norms |
| MatrixAlgebra.ProductIdentity | Final/complex_matrix.c:43-59 | multiplying by the identity matrix on either side changes nothing |
| MatrixAlgebra.ProductParts | Final/complex_matrix.c:48-55 | real and imaginary part of each entry of a product as sums of integers |
| ComplexMatrices.Transpose | Final/complex_matrix.c:33-41 | the new matrix has the argument's rows as columns, entry by entry |
| ComplexMatrices.Multiply | Final/complex_matrix.c:43-59 | null exactly if the sizes do not fit, otherwise the complex matrix product |
| ComplexMatrices.MultiplyEntry | Final/complex_matrix.c:48-55 | the accumulation leaves the dot product in the entry and every other entry alone |
| ComplexMatrices.OneOver | Final/complex_matrix.c:71-76 | truncating 1 / x is x for 1 and -1 and 0 otherwise |
| ComplexMatrices.TruncatesTowardsZero | Final/complex_matrix.c:71-76 | the quotient leaves a remainder smaller than the divisor and with the sign of the dividend |
| ComplexMatrices.TakeUnits | Final/complex_matrix.c:69-78 | the loops replace every part of every entry in place by its unit |
| ComplexMatrices.PseudoInverse | Final/complex_matrix.c:61-82 | for every size the product is not null and the result is the matrix of units of M^T M |
| ComplexMatrices.InverseEntries | Final/complex_matrix.c:68-79 | for either part g of each entry of M^T M the result u satisfies u g = 1 if g is 1 or -1, and is 0 otherwise |
| ComplexMatrices.InverseSymmetric | Final/complex_matrix.c:61-82 | the result is square and symmetric, with parts in {-1, 0, 1} |
| ComplexMatrices.PartialSumBounded | Final/complex_matrix.c:24-56 | after n terms the real part is within n 999^2 and the imaginary part within 0 and 2 n 999^2 |
| ComplexMatrices.NoOverflow | Final/complex_matrix.c:50-54 | with 2 r 999^2 below 2^63 every product, term and partial sum fits a `long long` |
| ParkingLot.InvStep | Homework3/hw3.c:37-95 | free spots plus the spot between the owner's and the attendant's update are the capacity; tokens and lock are where the threads' positions say |
| ParkingLot.NobodyTurnedAway | Homework3/hw3.c:97-116 | for every sequence of kinds and every interleaving no owner is refused, and between rounds 8 and 4 spots are free and all semaphores 0 |
| ParkingLot.Rendezvous | Homework3/hw3.c:37-95 | the attendant starts after the owner's post and the owner leaves after the attendant's; they are never both inside the lock; 7 or 3 spots are free exactly between the two updates, 8 and 4 otherwise |
| ParkingLot.RefusedExactly | Homework3/hw3.c:44-54 | whatever the counter, an owner is refused if and only if no spot is free, and takes one otherwise |
| ParkingLot.RoundMoves | Homework3/hw3.c:107-111 | in a round some thread or the join can always move |
| ParkingLot.StepCounts | Homework3/hw3.c:107-111 | every step of a round, in any order, leaves exactly one fewer |
| ParkingLot.RoundEnds | Homework3/hw3.c:107-111 | a round ends after exactly its steps with both joins returned and the owner served |
| OrderQueues.OrderQueue.constructor | Final/queue.c:4-8 | a new queue is valid and empty |
| OrderQueues.OrderQueue.Enqueue | Final/queue.c:10-23 | appends the order in a new node; all old nodes stay, head, tail and size agree |
| OrderQueues.OrderQueue.Dequeue | Final/queue.c:25-40 | removes and returns the first order; an empty queue stays empty and gives id -1 |
| OrderQueues.RemoveOrder | Final/server.c:99-120 | the queue is left valid with exactly the old contents without the id, in order, size included, in nodes that are all new |
| OrderQueues.DrainWithout | Final/server.c:104-113 | the first loop empties the queue and leaves the survivors, in order, in the temporary queue |
| OrderQueues.PourBack | Final/server.c:115-117 | the second loop moves them back in order and empties the temporary queue |
| OrderQueues.WithoutAppend | Final/server.c:104-113 | filtering keeps the order: it distributes over concatenation |
| OrderQueues.WithoutExact | Final/server.c:104-113 | no order with the id is left, no other is lost or duplicated, and cancelling twice is cancelling once |
| ClientQueues.ClientQueue.constructor | Midterm/queue.h:36-50 | a new queue is valid and empty |
| ClientQueues.ClientQueue.Enqueue | Midterm/queue.h:57-77 | appends the pid in a new node; front, rear and size agree |
| ClientQueues.ClientQueue.Dequeue | Midterm/queue.h:79-101 | removes and returns the first pid; an empty queue stays empty and gives INT_MIN |
| ClientQueues.ClientQueue.Unlink | Midterm/queue.h:151-165 | takes one node out at the front, in the middle or at the rear, keeping the chain acyclic and front, rear and size consistent |
| ClientQueues.ClientQueue.RemoveClient | Midterm/queue.h:136-175 | removes exactly the first node with the pid and returns it; changes nothing and returns null if there is none |
| ClientQueues.ClientQueue.IsClientInQueue | Midterm/queue.h:177-197 | true exactly if the pid is in the queue |
| ClientQueues.RemoveTakesOne | Midterm/queue.h:136-175 | removal takes exactly one client of the pid, the first, and no other |
| ClientQueues.RemoveUndoesEnqueue | Midterm/queue.h:57-175 | removing a pid that was not there before undoes its insertion, whoever joined later |
| Paging.AfterMeaning | Homework1/hw1.h:335-347 | the position found is the shortest prefix with n newlines, or the end if there are fewer |
| Paging.LinesCounts | Homework1/hw1.h:337-339 | what is counted is the newline characters |
| Paging.DisplayFirst5 | Homework1/hw1.h:326-350 | however the file is cut into reads, the shortest prefix with five newlines is written, or the whole file |
| Paging.FindPage | Homework1/hw1.h:375-406 | end of file exactly if there are too few newlines; otherwise, for every cut into reads, the offset is the page start less the start of the read that delivers it |
| Paging.SeeksRightExactly | Homework1/hw1.h:399-409 | that offset is the page start if and only if the page starts in the first read or at the start of the file; with full reads, at byte 1024 or before |
| Paging.ShowLines | Homework1/hw1.h:412-431 | writes the bytes from the offset up to, not including, the newline that ends the page, however they are read |
| Paging.DisplayPage | Homework1/hw1.h:360-431 | for every file, cut into reads and pair of arguments: the lines shown from that offset, or the end-of-file message |
| Paging.ShowsPage | Homework1/hw1.h:360-431 | for all arguments the page, or that there is none, is shown whenever the page starts in the first read |
| Paging.ShowsPageExactly | Homework1/hw1.h:360-431 | for a page whose first line does not also end an earlier line, the page is shown if and only if it starts in the first read |
| Paging.LatePageIsWrong | Homework1/hw1.h:402 | of a three-line file read two bytes at a time, page 3 is asked for and line 2 is shown |
| Paging.PagesRebuildFile | Homework1/hw1.h:375-431 | pages 1 to p, joined by newlines, are the file up to the newline that ends page p |
| Paging.FirstFiveIsPageOne | Homework1/hw1.h:326-350 | the first five lines are page 1 at five to a page and the newline that ends it |

## Left out

- Path strings, PATH_MAX and snprintf truncation in `Homework5/hw5.c`: paths are sequences of names; source and destination are taken to be disjoint, and the tree not to change during the run.
- Signals, timing, printing and logging everywhere, and `main` beyond starting and joining the threads.
- Allocation failure and `free`.
- The order of wakeups: a signal wakes any one sleeper; nothing is assumed of the scheduler.
- `Final/server.c`: each critical section of `order_mutex` and `task_mutex` is one step, sockets are reduced to the statuses sent, and the batch array of a courier is split at the loop index.
- The contents of `oven_queue` and cancellation inside it: up to three cooks update the list at a time without a lock and `dequeue` removes its head, not the cook's own order. Occupancy is given by the semaphores. `delivery_queue` is never filled.
- Cook and courier ids, which need not be unique because the pools are also started with the pool itself as argument; the numbers of cooks and couriers are arbitrary for the same reason.
- `Final/delivery.c`: floating-point distance and time.
- ComplexMatrices.Multiply: integers are unbounded; `NoOverflow` shows for the matrices the server generates that this makes no difference. Where C's signed arithmetic would overflow, C defines no result.
- PipelineProgress.EveryOrderIsServed: orders must stop arriving and spurious wakeups must stop; nothing is said of endless arrivals, where the cooks' stack is last in, first out.
- Paging.DisplayPage: failing reads, which end the program, and overflow of `int` line counts are not modelled.
- Paging.ShowsPageExactly: the text, as opposed to the offset, is not characterised for a page whose first line also ends an earlier line: a repetitive file can show the right text from the wrong place.
- `Homework4/hw4.h`: the same ring and worker protocol without the barrier. `Homework2`: its message order depends on `sleep`. The rest of `Homework1/hw1.h`, `Midterm/server.c` and `Midterm/concurrent_file_access_system.h`: process and file I/O and string splitting.
