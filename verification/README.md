# The ItIs kernel in Dafny

ItIs is a real-time kernel for the ITRON3.0 specification. The body of every system call is one
critical section, so the kernel is a transition system over task control blocks, queues and objects.
This project models its C code (the portable branches; priority-inheritance specification 1) and proves
what its design relies on, over every run.

`dafny verify dfyconfig.toml` checks everything.

## How it is organised

Each component has a value level, where a call is a function from state to state and the theorems are
proved, and an in-place level, where the C routines are methods on classes and arrays whose contracts say
that they compute exactly those functions. Loops, pointer walks and field writes are those of the C code.

| files | what |
|---|---|
| Common, TaskState, ChangePriority, QueueOrder, Inheritance, WaitOps, PriSem, PriSemExact, WaitChains, SystemCalls, AcquirePis, KernelRuns | tasks, wait queues, scheduling and priority-inheritance semaphores: state, calls, and theorems over all runs |
| ChainEffects, KernelEffects | what every kernel call does: codes, states, holders, and every place in a queue |
| WaitCycles, DeadlockRun | waits that close a cycle: exactly which, and a run into one |
| KernelTimers, TimedKernel, TimedEffects | what calls do to wait timers, and runs of calls and ticks over tasks and timer queue together |
| KernelObjects, TaskMethods, PrisemMethods, SyscallMethods | the same in place: TCBs, control blocks, pislist links and the bitmap ready queue |
| ReadyQueue | the bitmap ready queue and the plain list it refines |
| IntrusiveQueue | the doubly linked queues of kernel/queue.h as words in memory |
| PoolAreas, PoolLedger, PoolWaiters, PoolEffects | variable-size memory pools: areas, what callers can rely on, waiting tasks, what the calls do |
| PoolMemory, PoolRelease, PoolMethods | the same in memory: headers, mark bits, free-queue links, and the routines in place |
| MessageRing, MessageExchange, MessageOrder | message buffers: the byte ring, sending and receiving, who is served when |
| Rendezvous, RendezvousRuns, RendezvousEffects, RendezvousMethods | rendezvous ports: calls, runs, what the calls do, in place |
| TimerQueue, TimeCalls, TimerEffects | the timer queue, ticks, cyclic and alarm handlers |
| EventFlag | event flags |

Tasks, objects and priorities are indices; smaller priorities are more urgent. `hands` are tasks that a
call has unlinked for the moment, and `rank` is a witness that wait-for chains do not close on themselves;
both are ghost, and no step depends on `rank` (`KernelRuns.StepRank`, `KernelRuns.DoIs`).

## Results that the documentation does not have

* Nothing stops a task from waiting for a semaphore whose holder waits for that task; such a wait closes a
  cycle, and no other does (`WaitCycles.CycleIff`). Module DeadlockRun follows one run of calls. The
  deadlocked tasks keep the priority of a third task after that task has gone (`DeadlockArises`,
  `DeadlockSupportsItself`), and ending one of them links its dead queue node into a wait queue again
  (`DeadlockRelinksDyingTask`, `DormantTaskInQueue`). Runs therefore exclude waits that close a cycle;
  `AcquirePis.WaitPisSound` holds without that.
* `AcquirePis.ChgPriExactIff`: doc/PRISEM says that chg_pri is not taken into account. Precisely, it keeps
  inherited priorities if and only if it sets the priority that the task already has.
* `PoolWaiters.NeverStarvesIff`: a request of more than INT_MAX - 7 bytes becomes negative when it is
  rounded. It is never granted, but while it waits the bound in wakeup_mpl makes tasks behind it miss
  blocks that would fit (`StarvingRun`, `OverflowStarves`). Up to INT_MAX - 7 this cannot happen.
* i_tcal_por begins the reply wait with the caller's timeout (kernel/rendezvous.c:306) while its result is
  E_OK already, so that a timeout there would report success (`TimedKernel.CalledWithTimeout`), and a
  pcal_por that finds an acceptor makes timer_insert assert a positive timeout of 0 (kernel/timer.c:104).
* i_fwd_por hands the caller's event block to timer_insert, which initialises its node
  (kernel/rendezvous.c:487). If the caller had called with a timeout and found an acceptor at once, that
  block is in the timer queue. `TimedKernel.ForwardIff` says exactly when forwarding is safe;
  `IntrusiveQueue.Reinitialized` says what it does to the queue otherwise. Runs exclude that forward.

## Model

| member | source | states |
|---|---|---|
| TaskState.RemoveSorted | kernel/wait.c:184-195 | taking a task out of a priority queue, whatever its priority is changed to, leaves the queue sorted by current priority |
| TaskState.InsertSorted | kernel/queue.h:131-154 | inserting in front of the first less urgent task keeps a queue sorted |
| TaskState.UnlinkNodes | kernel/queue.h:88-98 | unlinking a linked node keeps every list equal to the set of nodes that claim to be in it |
| ChangePriority.Change | kernel/task.c:192-215 | change_task_priority with its hooks: it terminates, for a boost on every wait-for graph and otherwise on acyclic ones, keeps all fields in range, and every change of schedtsk comes with a dispatch request |
| ChangePriority.FollowFalls | kernel/prisem.c:240-247 | why the mutual recursion ends: a boost goes on as a boost to the same priority, which fewer and fewer tasks are less urgent than (reset_priority is not reached); any other change goes on to a task nearer to the end of the chain |
| ChangePriority.LessUrgentFalls | kernel/prisem.c:240-242 | a boost strictly lowers the number of tasks that are less urgent than the boosting priority, around a deadlock cycle too |
| QueueOrder.ChangeSound | kernel/task.c:192-215 | a priority change, through any chain of holders and started by a call on any object, keeps every node in the list its state dictates and every priority queue sorted |
| QueueOrder.RequeueWaitSound | kernel/wait.c:184-195 | gcb_change_priority re-sorts the queue of the object the task waits for |
| Inheritance.HeadsMinSpec | kernel/prisem.c:115-122 | the loop of reset_priority computes the minimum of the initial priority and of the first waiters' priorities |
| Inheritance.HeadLeast | kernel/prisem.c:118-122 | because queues are sorted, looking at first waiters only misses nobody |
| Inheritance.ResetInherits | kernel/prisem.c:113-126 | reset_priority's value is the minimum over ALL waiters of all held semaphores |
| Inheritance.HolderChangeInherits | kernel/prisem.c:230-248 | the two local tests of pis_chg_pri (holder less urgent; holder equal to the old priority) give the holder exactly the inherited priority in all cases, also when nothing is done |
| Inheritance.ChangeExact | kernel/prisem.c:230-248 | over the whole chain: every task that had its inherited priority before a priority change has its new inherited priority after it, although only one path is recomputed |
| WaitOps.WaitReleaseSound | kernel/wait.c:66-79 | wait_release takes the task out of its queue and timer and makes it READY or SUSPENDED, keeping all lists in order |
| WaitOps.GcbWaitSound | kernel/wait.c:166-176 | gcb_make_wait keeps lists, queue order and schedtsk in order, and links the task into the object's queue; its place is ChainEffects.GcbWaitPlace |
| WaitOps.SelfWaitSound | kernel/wait.c:102-117 | a wait without an object leaves the queue node linked to itself, so that wait_release may delete it |
| WaitOps.AcceptWaitSound | kernel/rendezvous.c:380-390 | when acceptance turns a wait in a call queue into the wait for the reply, with the node and the timer re-initialised by hand, all lists and queues stay in order |
| WaitOps.ForwardWaitSound | kernel/rendezvous.c:481-489 | when forwarding turns a wait for the reply into a wait in a call queue, all lists and queues stay in order |
| WaitOps.MakeReadySched | kernel/task.c:162-169 | make_ready updates schedtsk only when ready_queue_insert says so, and that is enough |
| WaitOps.MakeNonReadySched | kernel/task.c:178-186 | make_non_ready updates schedtsk only when it removed schedtsk, and that is enough |
| PriSem.PassOnSound | kernel/prisem.c:425-436 | handing a semaphore to its first waiter keeps all lists and queues in order |
| PriSem.WaitDeleteEffect | kernel/wait.c:124-133 | wait_delete releases exactly the waiting tasks with E_DLT and empties the queue |
| PriSemExact.ReleaseExact | kernel/prisem.c:138-185 | release_prisem recomputes only when the task's priority equals the first waiter's, and only lowers it; still the task has exactly what it inherits from the semaphores it keeps |
| PriSemExact.NewHolderExact | kernel/prisem.c:425-436 | the head waiter that takes the semaphore over needs no recomputation: it already is at least as urgent as all remaining waiters |
| PriSemExact.PassOnExact | kernel/prisem.c:425-436 | handing over a semaphore leaves every task at its inherited priority |
| PriSemExact.PassOnHeld | kernel/prisem.c:425-436 | after the hand-over every semaphore is in its holder's list exactly once and in no other |
| PriSemExact.SignalAllKeeps | kernel/prisem.c:195-214 | at the end of a task all its semaphores go to their first waiters or become free; everybody else keeps the inherited priority, and no wait-for cycle appears |
| PriSemExact.ResetExact | kernel/prisem.c:113-126 | reset_priority on one task whose waiters changed restores inherited priorities along the whole chain |
| PriSemExact.RelHookExact | kernel/prisem.c:260-271 | pis_rel_wai recomputes only if the priorities are equal, and that restores all inherited priorities after a forced release or a timeout |
| WaitChains.ChangeRank | kernel/prisem.c:230-248 | the result of change_task_priority does not depend on the witness of acyclicity |
| WaitChains.PriorityOverChains | doc/PRISEM:86-90 | if every task has its local inherited priority and chains are acyclic, every task runs at the most urgent initial priority among itself and everything it blocks, over chains of any length |
| SystemCalls.EndWaitExact | kernel/task_manage.c:511-536 | rel_wai restores all inherited priorities |
| SystemCalls.EndWaitOk | kernel/task_manage.c:511-536 | a forced release keeps lists, queues, schedtsk, held-semaphore lists and acyclicity in order |
| SystemCalls.TimeOutEnds | kernel/wait.c:82-91 | wait_release_tmout, without timer_delete and after timer_handler has unlinked the block, leaves the state that a release leaves, so a timeout keeps and restores the same; the code returned is the one the wait began with |
| SystemCalls.TerminateOk | kernel/task_manage.c:325-343 | ter_tsk and ext_tsk: no dead task keeps a semaphore or a queue place, everything else stays in order, and if all priorities were inherited they are after it |
| SystemCalls.ReturnPisExact | kernel/prisem.c:397-441 | vsig_pis leaves every task at its inherited priority (what it does is KernelEffects.SignalPisEffect) |
| SystemCalls.ReturnPisOk | kernel/prisem.c:397-441 | vsig_pis keeps lists, queues, held-semaphore lists and acyclicity |
| SystemCalls.DeleteOk | kernel/prisem.c:358-391 | vdel_pis of a held semaphore with waiters keeps everything in order and all priorities inherited |
| SystemCalls.CreateOk | kernel/prisem.c:291-328 | vcre_pis adds a free semaphore and disturbs nothing |
| SystemCalls.SuspendOk | kernel/task_sync.c:49-85 | sus_tsk keeps everything in order in each of the states it may find |
| SystemCalls.ResumeOk | kernel/task_sync.c:91-173 | rsm_tsk and frsm_tsk likewise |
| SystemCalls.RotateOk | kernel/task.c:221-238 | rotation keeps the ready queues and schedtsk right |
| AcquirePis.TakeOk | kernel/prisem.c:481-487 | taking a free semaphore links it into the taker's list, once |
| AcquirePis.WaitPisOk | kernel/prisem.c:488-498 | waiting for a held semaphore boosts the holder's chain first and then joins the queue in order; acyclicity is kept if the holder does not wait for the caller |
| AcquirePis.WaitPisSound | kernel/prisem.c:488-498 | even when the wait closes a deadlock cycle, the boost terminates and all lists and queues stay in order |
| AcquirePis.WaitPisExact | kernel/prisem.c:488-498 | and leaves every task at its inherited priority |
| AcquirePis.ChgPriExactIff | doc/PRISEM:92-96 | chg_pri keeps every priority inherited if and only if it sets the current priority again |
| AcquirePis.ChangeOk | kernel/task_manage.c:451-473 | chg_pri keeps lists, queues, schedtsk and held-semaphore lists in order for every priority |
| KernelRuns.StepOk | kernel/wait.c:50-133 | every modelled call, the releases from the middle of a queue and the moves from one wait to another included, keeps all structural invariants (lists, timers, sorted queues, schedtsk, held semaphores, acyclicity) |
| KernelRuns.StepExact | doc/PRISEM:86-90 | every modelled call but chg_pri takes a state with inherited priorities to one with inherited priorities |
| KernelRuns.InheritanceInRuns | doc/PRISEM:86-96 | in every state reached from the initial one without chg_pri, every task runs at the minimum over itself and its waiters, hence at the most urgent initial priority of everything it blocks |
| KernelRuns.NodesInRuns | kernel/wait.c:50-133 | in every reachable state each task is in exactly the list its state dictates, and its timer node is linked, to itself or into the timer queue, iff it waits; into which is TimedKernel.TimersInRuns |
| KernelRuns.SchedInRuns | kernel/task.c:144-238 | in every reachable state schedtsk is the first READY task of the most urgent priority, or null if there is none |
| KernelRuns.HoldersInRuns | kernel/prisem.c:137-214 | in every reachable state a held semaphore is exactly once in its live holder's list and in no other; a free one has no waiters and is in no list; priority queues are sorted |
| KernelRuns.RunKeeps | kernel/task.c:144-169 | over every run all invariants hold and every change of schedtsk came with a dispatch request |
| KernelRuns.StepRank | kernel/prisem.c:113-126 | two witnesses of acyclicity give the same step, for every call: the ghost rank never matters |
| KernelRuns.DoIs | kernel/prisem.c:113-126 | so the step an in-place call makes, with whatever witness its caller has, is the step of the runs |
| ChainEffects.GcbWaitPlace | kernel/wait.c:166-176 | a task that begins to wait goes to the end of a TA_TFIFO queue, and in any other queue behind those not less urgent and in front of those less urgent; no other queue changes |
| ChainEffects.RequeueWaitPlace | kernel/wait.c:184-195 | a waiting task whose priority changed is taken out of its queue and goes behind its new equals |
| ChainEffects.ChangeSpares | kernel/task.c:192-215 | a chain of priority changes leaves alone every other task that is as far from the end of its chain as the first, every semaphore such a task holds, and what the first change did to its task and queue |
| ChainEffects.ReleaseSpares | kernel/prisem.c:138-185 | release_prisem takes exactly this semaphore off the list, and touches no task in front of its holder |
| KernelEffects.StartEffect | kernel/task_manage.c:299-319 | sta_tsk: a DORMANT task becomes READY, the last of its priority; any other is refused |
| KernelEffects.SuspendEffect | kernel/task_sync.c:49-85 | sus_tsk: the count, the new state, and its two refusals |
| KernelEffects.ResumeEffect | kernel/task_sync.c:91-130 | rsm_tsk takes back one request; with the last one the task is READY again, last of its priority, or just waits |
| KernelEffects.ForceResumeEffect | kernel/task_sync.c:136-173 | frsm_tsk takes back all of them |
| KernelEffects.RotateEffect | kernel/task_manage.c:483-501 | rot_rdq: the first task of the priority goes behind the others of it, nothing else changes |
| KernelEffects.RotateRunEffect | kernel/task_manage.c:483-501 | rot_rdq(TPRI_RUN) rotates the priority of schedtsk |
| KernelEffects.WakeupEffect | kernel/task_sync.c:225-251 | wup_tsk ends a sleep with E_OK, and otherwise counts the request, up to INT_MAX |
| KernelEffects.SleepEffect | kernel/task_sync.c:196-219 | tslp_tsk consumes a counted request, or sleeps with its timeout, or polled in vain |
| KernelEffects.DelayEffect | kernel/time_calls.c:77-94 | dly_tsk waits with a timeout that returns E_OK |
| KernelEffects.WaitObjEffect | kernel/wait.c:166-176 | a wait on any object: the state, the code, the timer and the place in the queue |
| KernelEffects.SignalObjEffect | kernel/wait.c:66-79 | a release from the queue of an object ends that wait with E_OK and leaves the others in order |
| KernelEffects.CreateEffect | kernel/prisem.c:309-328 | a new object has an empty queue and no holder |
| KernelEffects.CallEffect | kernel/rendezvous.c:292-308 | tcal_por that finds an acceptor: its wait ends with E_OK, and the caller waits for the reply with the call's timeout |
| KernelEffects.AcceptEffect | kernel/rendezvous.c:380-390 | an accepted caller leaves the call queue and waits for the reply |
| KernelEffects.ForwardEffect | kernel/rendezvous.c:481-489 | a forwarded caller goes to the end of the call queue |
| KernelEffects.ReplyEffect | kernel/rendezvous.c:513-526 | a reply ends the wait for it with E_OK |
| KernelEffects.ChangePriEffect | kernel/task_manage.c:451-473 | chg_pri: the task has the new priority; READY, it is the last of it; in a queue in priority order it goes behind its new equals |
| KernelEffects.ReleaseWaitEffect | kernel/task_manage.c:511-536 | rel_wai ends any wait with E_RLWAI, takes the task and no other out of its queue, and refuses a task that does not wait |
| KernelEffects.ExpireEffect | kernel/wait.c:82-91 | a timeout ends the wait with the code stored when it began |
| KernelEffects.SignalPisEffect | kernel/prisem.c:397-441 | vsig_pis answers E_OK to the holder only; the semaphore leaves its list and is free, or belongs to the first waiter, whose wait ends with E_OK and who has it in its list; the others wait on in order |
| KernelEffects.MostUrgentNext | kernel/prisem.c:425-436 | the new holder is a most urgent one of the tasks that waited |
| KernelEffects.WaitPisEffect | kernel/prisem.c:465-501 | vtwai_pis acquires a free semaphore; for a held one the task waits behind its equals, and the holder is at least as urgent |
| KernelEffects.DeleteEffect | kernel/prisem.c:358-391 | vdel_pis, or the deletion of another object: exactly the tasks in the queue are released with E_DLT, the holder's list is without the semaphore, and nobody else is touched but for priorities |
| KernelEffects.TerTskEffect | kernel/task_manage.c:419-441 | ter_tsk: the task is DORMANT at its initial priority and holds nothing; each of its semaphores went to its own first waiter, with E_OK, or is free; nobody else is touched but for priorities |
| KernelEffects.ExtTskEffect | kernel/task_manage.c:349-379 | so does ext_tsk for the running task |
| KernelEffects.SignalAllHandsOn | kernel/prisem.c:195-214 | signal_all_prisem hands on every semaphore of the list, each to its own first waiter |
| KernelEffects.SignalPisReady | kernel/prisem.c:425-436 | the new holder, if READY, is the last of its priority |
| KernelEffects.DeleteReady | kernel/wait.c:124-133 | tasks released by a deletion become READY behind the others, in the order of the queue |
| KernelEffects.TerminateReady | kernel/prisem.c:195-214 | the new holders become READY behind the others, in the order of the dead task's list |
| WaitCycles.CycleIff | kernel/prisem.c:488-498 | a wait for a held semaphore leaves a kernel without cycles if and only if the holder does not wait, directly or through a chain, for the caller: what runs exclude is exactly this |
| WaitCycles.ChangeEnds | kernel/task.c:192-215 | change_task_priority with a count of its calls, defined on cycles too, is the specified change wherever that is defined |
| WaitCycles.TimeOutIs | kernel/wait.c:82-91 | the same for a timeout with its hook |
| WaitCycles.TakeDownIs | kernel/task_manage.c:325-343 | and for the part of ter_tsk up to its semaphores |
| DeadlockRun.Reached | kernel/prisem.c:465-501 | a run of calls leads from an initial state to the state in which task 1 may close a cycle with task 0, task 2 waiting with a timeout |
| DeadlockRun.Closes | kernel/prisem.c:488-498 | there the next vtwai_pis closes the cycle, and no witness of acyclicity exists afterwards |
| DeadlockRun.DeadlockArises | kernel/prisem.c:260-271 | when task 2, of initial priority 0, times out, its hook leaves tasks 0 and 1 waiting for each other at priority 0 |
| DeadlockRun.DeadlockSupportsItself | doc/PRISEM:86-90 | where each keeps the other at priority 0: both obey the local rule, while the most urgent initial priority among what they block is 1 |
| DeadlockRun.DeadlockRelinksDyingTask | kernel/task_manage.c:325-343 | and ter_tsk of one of them unlinks its queue node and then, through the chain of priority changes, links it into a wait queue again |
| DeadlockRun.DormantTaskInQueue | kernel/task_manage.c:325-343 | so that a DORMANT task is left in a wait queue: the list invariant is broken |
| KernelTimers.StepTimers | kernel/timer.c:94-108 | every call leaves the wait timer of every task as it is while the task goes on waiting, except of the task whose wait begins or changes, whose timer is as its timeout says |
| KernelTimers.ExpireEnds | kernel/wait.c:82-91 | a timeout ends the wait of its task and of no other |
| TimedKernel.CallDiscipline | kernel/wait.c:66-71 | over tasks and timer queue together: every event block that a kernel call deletes is in the queue, and the block it inserts is not |
| TimedKernel.ByKernelOk | kernel/timer.c:94-108 | every kernel call keeps task timers and timer queue together and adds future events only |
| TimedKernel.FiresOnTime | kernel/timer.c:155-161 | a task event that fires is that of a task waiting with exactly this limit, so wait_release_tmout meets a waiting task and an unlinked block |
| TimedKernel.FireAllOk | kernel/timer.c:155-166 | the loop of timer_handler keeps all that, whatever handlers do to tasks, timers and themselves, and leaves nothing due |
| TimedKernel.TimersInRuns | kernel/timer.c:94-168 | over any run of kernel calls, handler calls and ticks: the event block of a task is in the timer queue, for the time its wait is to end, if and only if the task waits with a timeout; its node is linked to itself iff it waits without one; no wait outlasts its limit |
| TimedKernel.ForwardIff | kernel/rendezvous.c:487-489 | fwd_por, which re-initialises the caller's timer without timer_delete, keeps this if and only if the caller's block is not in the timer queue |
| TimedKernel.CalledWithTimeout | kernel/rendezvous.c:292-308 | and it is in the queue after a tcal_por with a timeout that found an acceptor at once; the timeout of that wait would return E_OK |
| TimedEffects.WaitsUntil | kernel/timer.c:94-108 | a wait with a timeout is to end exactly that many milliseconds after the call |
| TimedEffects.TimeoutsInTick | kernel/timer.c:146-168 | in a tick in which handlers make no calls exactly those waits end whose time has come, each with its stored code |
| TimedEffects.CyclicActs | kernel/time_calls.c:152-160 | a cyclic handler that is due is due again a period from now, and then acts if and only if it is on |
| TimedEffects.AlarmActs | kernel/time_calls.c:350-363 | an alarm that is due is undefined, and then its handler acts |
| TimedEffects.KernelPart | kernel/timer.c:146-168 | the kernel's part of every run with time, ticks and handlers is a run of kernel calls, so every theorem over those holds here |
| TimedEffects.InheritanceInTime | doc/PRISEM:86-96 | priority inheritance over chains holds with timeouts, handlers and ticks |
| ReadyQueue.Ffs | kernel/ready_queue.h:125-140 | the shift loop ends on every non-zero word, the sign bit included, and returns the lowest set bit |
| ReadyQueue.RdyQue.Insert | kernel/ready_queue.h:191-205 | insertion keeps bitmap and cached top priority in agreement with the queues, and reports whether the new task is now the first |
| ReadyQueue.RdyQue.InsertTop | kernel/ready_queue.h:214-226 | insertion at the front of a priority's queue |
| ReadyQueue.RdyQue.Delete | kernel/ready_queue.h:235-276 | deletion clears the bit iff the queue became empty and finds the next top priority from the middle of the bitmap on |
| ReadyQueue.RdyQue.FindTop | kernel/ready_queue.h:235-276 | the bitmap search returns the least non-empty priority, or NUM_PRI |
| ReadyQueue.RdyQue.RotateQueue | kernel/ready_queue.h:285-303 | rotation moves the first task of one priority to its end, and nothing else |
| ReadyQueue.RdyQue.ReadTop | kernel/ready_queue.h:164-168 | the cached top priority yields the first task of the most urgent non-empty queue |
| ReadyQueue.InsertRefines | kernel/ready_queue.h:191-205 | in terms of one plain list ordered by priority and arrival, insertion is insertion behind the equals |
| ReadyQueue.DeleteRefines | kernel/ready_queue.h:235-276 | deletion is removal from that list |
| ReadyQueue.RotateRefines | kernel/ready_queue.h:285-303 | rotation moves the first entry of the priority behind the last of the same priority in that list, and nothing else |
| ReadyQueue.TopRefines | kernel/ready_queue.h:164-168 | ready_queue_top is the first entry of that list |
| ReadyQueue.FlatSorted | kernel/ready_queue.h:191-303 | the list is ordered by priority |
| TaskMethods.MakeReady | kernel/task.c:162-169 | in place: exactly the specified new state |
| TaskMethods.MakeNonReady | kernel/task.c:178-186 | in place, on the bitmap queue |
| TaskMethods.RequeueReady | kernel/task.c:196-207 | the READY branch of change_task_priority in place: delete before the priority is overwritten |
| TaskMethods.RotateReadyQueue | kernel/task.c:221-225 | rotate_ready_queue in place |
| TaskMethods.MakeNonWait | kernel/wait.c:51-61 | make_non_wait in place |
| TaskMethods.WaitRelease | kernel/wait.c:66-79 | wait_release in place; queue_delete and timer_delete meet linked nodes only |
| TaskMethods.WaitReleaseTmout | kernel/wait.c:82-86 | wait_release_tmout in place: no timer_delete |
| TaskMethods.ReleaseTimedOut | kernel/timer.c:157-160 | timer_handler's queue_delete of a linked block, then wait_release_tmout |
| TaskMethods.StartWait | kernel/wait.c:102-115 | make_wait up to the timer in place |
| TaskMethods.GcbMakeWait | kernel/wait.c:166-176 | gcb_make_wait in place |
| TaskMethods.GcbChangePriority | kernel/wait.c:184-195 | gcb_change_priority in place |
| TaskMethods.WaitDelete | kernel/wait.c:124-133 | the loop of wait_delete in place |
| KernelObjects.Tables.QueueSearchGt | kernel/queue.h:131-154 | the search loop finds the first less urgent task |
| KernelObjects.Tables.FindPis | kernel/prisem.c:176-182 | the pointer walk along a pislist finds the semaphore and the link that leads to it |
| KernelObjects.Tables.CutPis | kernel/prisem.c:150-153 | overwriting that link takes exactly this semaphore out of the list |
| KernelObjects.Tables.PushPis | kernel/prisem.c:432-435 | a semaphore is linked in front of its new holder's list |
| PrisemMethods.ChangeTaskPriority | kernel/task.c:192-215 | change_task_priority in place, mutually recursive with the two below |
| PrisemMethods.PisChgPri | kernel/prisem.c:230-248 | pis_chg_pri in place |
| PrisemMethods.ResetPriority | kernel/prisem.c:113-126 | reset_priority in place |
| PrisemMethods.HolderCases | kernel/prisem.c:240-247 | the three cases of pis_chg_pri on the holder, each equal to the specified change and nearer to the end of the recursion |
| PrisemMethods.RelWaiHook | kernel/prisem.c:260-271 | pis_rel_wai in place |
| PrisemMethods.ReleasePrisem | kernel/prisem.c:138-185 | release_prisem in place, with its one walk over the list in two loops and the splice between them |
| PrisemMethods.SplitMin | kernel/prisem.c:147-167 | the minimum gathered in front of the released semaphore and behind it is the minimum over the rest of the list |
| PrisemMethods.SignalAllPrisem | kernel/prisem.c:195-214 | signal_all_prisem in place: the next link is read before the semaphore is relinked |
| SyscallMethods.StaTsk | kernel/task_manage.c:299-319 | sta_tsk in place refines the step of the run model |
| SyscallMethods.TerTsk | kernel/task_manage.c:419-441 | ter_tsk likewise |
| SyscallMethods.ExtTsk | kernel/task_manage.c:349-379 | ext_tsk likewise |
| SyscallMethods.ChgPri | kernel/task_manage.c:451-473 | chg_pri likewise |
| SyscallMethods.RotRdq | kernel/task_manage.c:483-501 | rot_rdq for a given priority |
| SyscallMethods.RotRdqRun | kernel/task_manage.c:483-501 | rot_rdq for the running priority |
| SyscallMethods.RelWai | kernel/task_manage.c:511-536 | rel_wai likewise |
| SyscallMethods.Expire | kernel/timer.c:157-160 | the expiry of a wait timer likewise: queue_delete by timer_handler, then the callback |
| SyscallMethods.TimeOut | kernel/wait.c:82-91 | wait_release_tmout with its hook, behind timer_handler's deletion of the block |
| SyscallMethods.SusTsk | kernel/task_sync.c:49-85 | sus_tsk likewise, with the INT_MAX limit on nesting |
| SyscallMethods.RsmTsk | kernel/task_sync.c:91-130 | rsm_tsk likewise |
| SyscallMethods.FrsmTsk | kernel/task_sync.c:136-173 | frsm_tsk likewise |
| SyscallMethods.WupTsk | kernel/task_sync.c:225-251 | wup_tsk likewise, with the INT_MAX limit on queued wakeups |
| SyscallMethods.SlpTsk | kernel/task_sync.c:196-219 | tslp_tsk likewise |
| SyscallMethods.DlyTsk | kernel/time_calls.c:77-94 | dly_tsk with a positive delay |
| SyscallMethods.VtwaiPis | kernel/prisem.c:465-501 | vtwai_pis likewise |
| SyscallMethods.VsigPis | kernel/prisem.c:397-441 | vsig_pis likewise |
| SyscallMethods.DelObj | kernel/prisem.c:358-391 | vdel_pis, and the deletion of any other object with a wait queue |
| SyscallMethods.CreObj | kernel/prisem.c:309-328 | vcre_pis, and the creation of any other object with a wait queue |
| SyscallMethods.SigObj | kernel/eventflag.c:231-246 | the release of any waiting task of a queue by another object's call |
| SyscallMethods.CalRdv | kernel/rendezvous.c:292-308 | the task side of tcal_por that finds an acceptor: release, then the wait for the reply with the caller's timeout |
| SyscallMethods.AcpRdv | kernel/rendezvous.c:380-390 | the task side of tacp_por that finds a caller |
| SyscallMethods.FwdRdv | kernel/rendezvous.c:481-489 | the task side of fwd_por that finds no acceptor |
| SyscallMethods.RplRdv | kernel/rendezvous.c:513-526 | the task side of rpl_rdv |
| IntrusiveQueue.InsertRing | kernel/queue.h:70-81 | on memory, queue_insert turns the ring of a queue into the ring with the entry in front of the given place |
| IntrusiveQueue.DeleteRing | kernel/queue.h:88-98 | queue_delete turns it into the ring without the entry, whose own links stay as they were |
| IntrusiveQueue.WithoutIsRemove | kernel/queue.h:88-98 | which is the removal that the value-level queues use |
| IntrusiveQueue.Memory.QueueInitialize | kernel/queue.h:58-61 | an initialised header is the ring of an empty queue |
| IntrusiveQueue.Memory.QueueInsert | kernel/queue.h:70-81 | the four pointer writes |
| IntrusiveQueue.Memory.QueueDelete | kernel/queue.h:88-98 | the two pointer writes, or none for an entry linked to itself |
| IntrusiveQueue.Memory.QueueDeleteNext | kernel/queue.h:108-121 | takes out and returns the first entry |
| IntrusiveQueue.Memory.QueueSearchGt | kernel/queue.h:131-154 | returns the first entry whose field is greater, or the header |
| IntrusiveQueue.Memory.QueueEmpty | kernel/queue.h:160-167 | says whether the ring is the header alone |
| IntrusiveQueue.DoubleDelete | kernel/queue.h:88-98 | why the invariant about lists matters: deleting an entry twice makes the header lead to an entry that is not queued |
| IntrusiveQueue.Reinitialized | kernel/queue.h:58-61 | so does initialising one that is queued: the predecessor still leads to it, no later queue_delete of it changes a word, and the ring is lost |
| PoolAreas.GetFailsIff | kernel/mempool.c:155-183 | _get_blk refuses a request exactly if no free block serves it, and then changes nothing |
| PoolAreas.GetKeeps | kernel/mempool.c:155-183 | a get keeps the pool tiled, with no two free areas side by side, and the free queue listing exactly the free areas once each |
| PoolAreas.RelKeeps | kernel/mempool.c:189-239 | so does a release, in all four cases of merging and for a block that is not in use |
| PoolAreas.Upwards | kernel/mempool.c:137-239 | areas follow each other upwards, at least 16 bytes and a multiple of 8 apart |
| PoolLedger.GetGrants | kernel/mempool.c:155-183 | a get adds exactly one block of r <= size < r + 16 bytes to the blocks in use and changes no other |
| PoolLedger.ReleaseReturns | kernel/mempool.c:189-239 | a release takes exactly its block out of the blocks in use; a block not in use is refused with E_PAR and nothing changes |
| PoolLedger.BlocksDisjoint | kernel/mempool.c:137-239 | blocks in use are disjoint and inside the pool |
| PoolLedger.SizesAddUp | kernel/mempool.c:506-518 | free bytes, used bytes and 8 bytes a header always add up to mplsz |
| PoolLedger.AllReleased | kernel/mempool.c:204-237 | when every block is released the pool is one free area again |
| PoolLedger.LargestIsGranted | kernel/mempool.c:506-518 | a request is granted if and only if it is at most the maxsz that ref_mpl reports |
| PoolLedger.RunTiles | kernel/mempool.c:137-239 | all this holds after every run of gets and releases |
| PoolWaiters.PruningIsExact | kernel/mempool.c:245-268 | the maxsz bound of wakeup_mpl changes nothing: the same tasks get the same blocks as when every waiter is tried |
| PoolWaiters.WakeupServes | kernel/mempool.c:245-268 | after wakeup_mpl nobody waits who could be served |
| PoolWaiters.NoServableWaiter | kernel/mempool.c:418-482 | in every state of a run whose requests are at most INT_MAX - 7 no free block is as large as any waiter's request |
| PoolWaiters.RoundsIff | kernel/mempool.c:101-102 | ROUNDSZ yields a proper size exactly for requests of at most INT_MAX - 7; above that it becomes negative |
| PoolWaiters.RemainderTest | kernel/mempool.c:163 | the remainder test in 32 bits is the test whether the block fits, for every request a call can make, overflowed ones included |
| PoolWaiters.OverflowStarves | kernel/mempool.c:263-265 | how it fails: with a request above INT_MAX - 7 in front, wakeup_mpl passes over a request that the free pool serves |
| PoolWaiters.StarvingRun | kernel/mempool.c:418-482 | for every such request a run of get, get, get and release from the new pool that ends with that waiter beside a free pool |
| PoolWaiters.NeverStarvesIff | kernel/mempool.c:418-482 | every run with requests up to a bound is free of waiters that could be served if and only if the bound is at most INT_MAX - 7 |
| PoolEffects.FirstFitServes | kernel/mempool.c:161-180 | the first entry of the free queue that is large enough gives the block: its last bytes if the rest can be an area, and then it keeps its place |
| PoolEffects.LastReleasedFirst | kernel/mempool.c:204-220 | a block released behind a block in use is the first to be used again |
| PoolEffects.JoinsInPlace | kernel/mempool.c:221-237 | a block released behind a free area joins it, which keeps its place in the free queue |
| PoolEffects.GetEffect | kernel/mempool.c:418-453 | tget_blk answers E_OK if and only if some free block serves the request, and then hands out exactly one block of that size; otherwise the task takes its place in the queue, or polled in vain |
| PoolEffects.LastWaiterInTurn | kernel/mempool.c:245-268 | waiting tasks are served in their order: what the last one gets is decided by what the others leave |
| PoolEffects.PassGrants | kernel/mempool.c:255-266 | every task served has a block of its own, large enough for its request, and the blocks in use are untouched |
| PoolEffects.ReleaseEffect | kernel/mempool.c:459-482 | rel_blk answers E_OK if and only if the address is that of a block in use; then that block is free, except as far as it is granted again |
| PoolMemory.SplitStored | kernel/mempool.c:164-173 | in memory: splitting writes headers that represent the split pool, and no byte of a block in use |
| PoolMemory.OccupyStored | kernel/mempool.c:174-179 | in memory: using an area whole likewise |
| PoolRelease.MergedBetween | kernel/mempool.c:202-237 | in memory: the header writes of the four merge cases represent the merged pool; the free queue is untouched so far |
| PoolRelease.DeleteBetween | kernel/mempool.c:217-235 | unlinking the area behind from the free queue leaves headers and blocks in use alone |
| PoolMethods.ListedFront | kernel/mempool.c:209-218 | linking the released block in front of the free queue likewise, and the links then are those of the longer queue |
| PoolMethods.MemoryPool.constructor | kernel/mempool.c:137-149 | init_mpl and the free queue of a new pool |
| PoolMethods.MemoryPool.GetBlock | kernel/mempool.c:155-183 | _get_blk in place refines the value-level get and writes nothing inside a block in use or outside the pool and its queue header |
| PoolMethods.MemoryPool.Remainder | kernel/mempool.c:162-163 | the remainder is computed and tested in 32 bits |
| PoolMethods.MemoryPool.ReleaseBlock | kernel/mempool.c:189-239 | _rel_blk in place likewise, with mark bits, pointer writes and free-queue surgery |
| PoolMethods.MemoryPool.WakeupMpl | kernel/mempool.c:245-268 | wakeup_mpl in place grants exactly what the value-level pass grants |
| PoolMethods.MemoryPool.TgetBlk | kernel/mempool.c:418-453 | tget_blk in place, for every request up to INT_MAX: granted with its block, polled in vain, or queued; no byte of a block in use is written |
| PoolMethods.MemoryPool.RelBlkCall | kernel/mempool.c:459-482 | rel_blk in place, with its range check and the list of tasks released with their blocks; no byte of a block that stays in use is written |
| PoolMethods.MemoryPool.RefMpl | kernel/mempool.c:506-518 | ref_mpl's loop computes the free bytes and the largest free block |
| MessageRing.UnroundedTest | kernel/messagebuf.c:114-125 | the unrounded test of mbf_free equals the rounded one |
| MessageRing.HeaderRoundTrip | kernel/messagebuf.c:147 | a size stored as a header is read back unchanged |
| MessageRing.Wraps | kernel/messagebuf.c:153-163 | where a body ends after one or two copies |
| MessageRing.HoldsAppend | kernel/messagebuf.c:140-165 | a framed message behind framed messages is the framing of the longer sequence |
| MessageRing.Ring.Free | kernel/messagebuf.c:122-125 | mbf_free says whether the rounded message and its header fit behind the messages held |
| MessageRing.Ring.Empty | kernel/messagebuf.c:131-134 | mbf_empty says whether no message is held, the full ring with head == tail included |
| MessageRing.Ring.Put | kernel/messagebuf.c:140-165 | msg_to_mbf appends exactly this message to the sequence held, header and body wrapping as they may |
| MessageRing.Ring.Get | kernel/messagebuf.c:171-199 | mbf_to_msg returns exactly the first message, byte for byte, and leaves the others |
| MessageExchange.SendSettles | kernel/messagebuf.c:365-394 | after tsnd_mbf a waiting receiver still implies an empty buffer and no waiting sender, and no waiting sender's message fits |
| MessageExchange.ReceiveSettles | kernel/messagebuf.c:435-467 | so after trcv_mbf, whose single pass admits every sender that fits |
| MessageExchange.AdmitParts | kernel/messagebuf.c:441-450 | that pass neither loses nor repeats a waiting sender |
| MessageExchange.FirstInFirstOut | kernel/messagebuf.c:352-467 | over any run the messages whose sending ended with E_OK are, in that order, those received followed by those still held |
| MessageExchange.Overtaking | kernel/messagebuf.c:380-382 | a message that fits overtakes a waiting sender, whose message then is longer |
| MessageOrder.SendEffect | kernel/messagebuf.c:352-397 | tsnd_mbf: accepted is the sender's own message; it goes to the first waiting receiver, who leaves the others in order, or behind the messages held |
| MessageOrder.ReceiveEffect | kernel/messagebuf.c:421-471 | trcv_mbf answers E_OK if and only if there is a message, in the buffer or with a waiting sender, and delivers the first one; otherwise the task takes its place |
| MessageOrder.LastSenderInTurn | kernel/messagebuf.c:441-450 | waiting senders are tried in their order |
| MessageOrder.ServedInOrder | kernel/messagebuf.c:374-379 | over any run in arrival order the tasks handed a message are the first of those that had to wait and did not leave, and the others still wait, in order |
| MessageOrder.FirstComeFirstServed | kernel/messagebuf.c:374-379 | so the k-th task handed a message is the k-th of those that had to wait and did not leave |
| MessageExchange.MessageBuffer.Tsnd | kernel/messagebuf.c:352-397 | tsnd_mbf in place, with the receiver that got the message |
| MessageExchange.MessageBuffer.Trcv | kernel/messagebuf.c:421-471 | trcv_mbf in place, with the message received and the senders released with E_OK |
| MessageExchange.MessageBuffer.AdmitAll | kernel/messagebuf.c:441-450 | the loop over the waiting senders in place: which messages go into the ring, who keeps waiting, who is released |
| RendezvousRuns.NextOfNumber | kernel/rendezvous.c:99-107 | gen_rdvno steps through the numbers of the task in 32 bits |
| RendezvousRuns.NumberLeadsBack | kernel/rendezvous.c:109-113 | every number decodes to its task's id, for negative ids too |
| RendezvousRuns.NumbersEqualIff | kernel/rendezvous.c:97-107 | two numbers of a task are equal if and only if they are a multiple of 2^16 generations apart |
| RendezvousRuns.DoGood | kernel/rendezvous.c:288-322 | every call leaves the queues in order and no matching caller and acceptor waiting |
| RendezvousRuns.NoMatchingPairWaits | kernel/rendezvous.c:372-405 | in every reachable state no queued caller's pattern intersects a queued acceptor's on any port |
| RendezvousRuns.ForwardGood | kernel/rendezvous.c:416-494 | forwarding, matched or not, keeps that |
| RendezvousRuns.LiveNumbersDiffer | kernel/rendezvous.c:99-113 | a number names at most one rendezvous in progress |
| RendezvousRuns.UseSpends | kernel/rendezvous.c:444-490 | a successful reply or forward consumes the number it names, which is the last one generated for the task |
| RendezvousRuns.RepliedOnce | kernel/rendezvous.c:513-526 | a number used by a reply is refused by replies and forwards from then on, until 2^16 newer ones were generated |
| RendezvousRuns.ForwardedOnce | kernel/rendezvous.c:466-489 | so is one used by a forward |
| RendezvousRuns.LeftOnce | kernel/rendezvous.c:444-451 | so is the number of a rendezvous that its caller left by a timeout, a forced release or its end |
| RendezvousRuns.NumbersRepeat | kernel/rendezvous.c:105 | after exactly 2^16 generations the number comes again |
| RendezvousRuns.ReplyLimited | kernel/rendezvous.c:513-526 | a delivered reply is never longer than the limit recorded at the call |
| RendezvousRuns.LimitStays | kernel/rendezvous.c:444-458 | that limit is the first port's, however often the call is forwarded |
| RendezvousRuns.RunOk | kernel/rendezvous.c:259-529 | the invariants hold over every run of calls, accepts, forwards, replies, deletions and timeouts |
| RendezvousRuns.InitialOk | kernel/task.c:80-101 | the initial numbers and empty ports satisfy them |
| RendezvousEffects.CallEffect | kernel/rendezvous.c:260-325 | tcal_por: its codes; the first matching acceptor in the queue is released, with the message and the number that the caller then waits with; or the caller waits at the end of the call queue |
| RendezvousEffects.AcceptEffect | kernel/rendezvous.c:351-408 | tacp_por: the first matching caller is accepted, with the message it called with, and the acceptor gets the number that this caller then waits with, under the limit of the port |
| RendezvousEffects.ForwardEffect | kernel/rendezvous.c:416-494 | fwd_por: E_OK exactly for a rendezvous in progress within both limits; its caller meets the first matching acceptor under a new number, or waits in the new call queue; the refusals in the order of the code |
| RendezvousEffects.ReplyEffect | kernel/rendezvous.c:501-529 | rpl_rdv delivers exactly to the task that waits for a reply with this number, if the reply is within its limit |
| RendezvousEffects.NumberAnswers | kernel/rendezvous.c:377-388 | the number an acceptor gets is the one to reply with: the reply reaches the caller if and only if it is within the limit of the port it was accepted on |
| RendezvousEffects.StillAnswers | kernel/rendezvous.c:513-526 | and stays so over any run in which the rendezvous is neither left nor its number used |
| RendezvousEffects.DeleteEffect | kernel/rendezvous.c:210-236 | del_por releases exactly the tasks that wait on the port; rendezvous in progress go on |
| RendezvousEffects.LeaveEffect | kernel/wait.c:66-79 | a task whose wait ends leaves its queue, and nothing else changes |
| RendezvousMethods.Tables.TcalPor | kernel/rendezvous.c:260-325 | tcal_por in place: scan, number, and the two waits |
| RendezvousMethods.Tables.TacpPor | kernel/rendezvous.c:351-408 | tacp_por in place |
| RendezvousMethods.Tables.FwdPor | kernel/rendezvous.c:416-494 | fwd_por in place, with its checks in order |
| RendezvousMethods.Tables.RplRdv | kernel/rendezvous.c:501-529 | rpl_rdv in place |
| RendezvousMethods.Tables.DelPor | kernel/rendezvous.c:210-236 | del_por in place |
| TimerQueue.EnqueueOk | kernel/timer.c:75-85 | insertion in front of the events of the same time keeps the queue sorted and adds exactly this event |
| TimerQueue.DropOk | kernel/timer.h:82-86 | deletion takes out exactly this event block |
| TimerEffects.EnqueuePlace | kernel/timer.c:75-85 | an event goes behind the earlier ones and in front of those of the same time |
| TimeCalls.CallDiscipline | kernel/time_calls.c:184-268 | every call deletes only linked event blocks, task blocks included, inserts only unlinked ones, and inserts strictly later events only |
| TimeCalls.DoOk | kernel/time_calls.c:184-427 | and keeps the queue sorted and each handler defined iff its block is linked |
| TimeCalls.FireFirstOk | kernel/time_calls.c:153-160 | firing a cyclic handler, an alarm or a timeout takes one due event away and adds none, whatever calls the handler makes, on itself included |
| TimeCalls.FireOn | kernel/timer.c:155-166 | every round of the loop leaves strictly fewer events due, whatever the callback does, so it ends |
| TimeCalls.TickFires | kernel/timer.c:146-168 | a tick fires exactly the due events that no handler took off the queue: none early, none twice, in the order of their times; then nothing is due |
| TimeCalls.RunOk | kernel/timer.c:74-168 | over any run of calls, waits and ticks the queue stays sorted and nothing is overdue |
| TimerEffects.DefCycEffect | kernel/time_calls.c:184-212 | def_cyc: the handler is as given and next due a period from now; every other event stays |
| TimerEffects.UndefCycEffect | kernel/time_calls.c:184-212 | undefined, it is due no more |
| TimerEffects.ActCycEffect | kernel/time_calls.c:245-268 | act_cyc sets the activation, and with TCY_INI makes the handler due a period from now; without, its time stays |
| TimerEffects.DefAlmEffect | kernel/time_calls.c:391-430 | def_alm: due after or at the given time, which must lie in the future |
| TimerEffects.CyclicFires | kernel/time_calls.c:152-160 | a cyclic handler that is due is due again a period from now, and makes its calls after that, if and only if it is on |
| TimerEffects.AlarmFires | kernel/time_calls.c:350-363 | an alarm that is due is undefined first, and then makes its calls |
| TimerEffects.TickSilent | kernel/timer.c:146-168 | a tick at which only handlers are due that are off runs nothing, whatever calls they would make |
| TimerEffects.DueEveryPeriod | kernel/time_calls.c:152-160 | a cyclic handler fires at the tick at which it is due and is then due a period after that tick, whatever other handlers do |
| TimeCalls.Timer.EnqueueTmeb | kernel/timer.c:75-85 | enqueue_tmeb in place |
| TimeCalls.Timer.TimerHandler | kernel/timer.c:146-168 | timer_handler in place |
| TimeCalls.Timer.CallCychdr | kernel/time_calls.c:152-160 | call_cychdr in place: the block goes back into the queue before the handler runs |
| TimeCalls.Timer.CallAlmhdr | kernel/time_calls.c:350-363 | call_almhdr in place: the handler is undefined before it runs |
| TimeCalls.Timer.DefCycCall | kernel/time_calls.c:184-212 | def_cyc in place |
| TimeCalls.Timer.ActCycCall | kernel/time_calls.c:245-268 | act_cyc in place |
| TimeCalls.Timer.DefAlmCall | kernel/time_calls.c:391-430 | def_alm in place, with its check of absolute times |
| EventFlag.ScanReleases | kernel/eventflag.c:231-246 | set_flg's pass releases exactly the satisfied tasks up to the first that clears, all with the pattern as set; behind that one everybody keeps waiting on an empty flag |
| EventFlag.SetOk | kernel/eventflag.c:214-251 | so nobody waits for bits that are set, although the pass exits early |
| EventFlag.ClearOk | kernel/eventflag.c:257-275 | clearing bits satisfies nobody |
| EventFlag.NobodyWaitsInVain | kernel/eventflag.c:214-339 | in no state of a run does a task wait whose condition holds, and without TA_WMUL at most one waits |
| EventFlag.CondMeans | kernel/eventflag.c:94-103 | TWF_ANDW asks for all bits, TWF_ORW for one of them |
| EventFlag.SetEffect | kernel/eventflag.c:214-251 | set_flg adds its bits to those that are set; released are exactly the tasks this pattern satisfies, up to the first that clears, each with the pattern; everyone else waits on in order |
| EventFlag.ClearEffect | kernel/eventflag.c:257-275 | clr_flg keeps the bits of its mask and clears the others |
| EventFlag.WaitEffect | kernel/eventflag.c:299-339 | twai_flg: E_OBJ iff another task waits without TA_WMUL, E_OK iff the condition holds, with the pattern found, which TWF_CLR then empties; otherwise the task waits last, or polled in vain |
| EventFlag.EventFlagBlock.SetFlg | kernel/eventflag.c:214-251 | set_flg in place |
| EventFlag.EventFlagBlock.TwaiFlg | kernel/eventflag.c:299-339 | twai_flg in place |
| EventFlag.EventFlagBlock.ClrFlg | kernel/eventflag.c:257-275 | clr_flg in place |

## Left out

* Hardware: register contexts, interrupt masks, stacks and the tron queue instructions. A dispatch request
  is a counter in the state.
* Argument and context checks, identifier tables and free lists, automatic identifiers, reference calls
  other than ref_mpl, and creation and deletion of tasks (cre_tsk, del_tsk, exd_tsk): tasks are there from the
  start, DORMANT or not registered.
* Priority-inheritance specification 2, which gives the inheritance property up on purpose.
- KernelRuns.InheritanceInRuns: excludes chg_pri, as doc/PRISEM:92-96 does (see AcquirePis.ChgPriExactIff for the exact effect), and waits that close a cycle.
- KernelRuns.Step: semaphores, mailboxes, fixed-size pools and the other objects take part with their wait queues only (WaiObj, SigObj, CreObj, DelObj, and CalRdv, AcpRdv, FwdRdv, RplRdv for ports); what they count or store, and which waiter they choose, is in their own modules or left out. A call that releases several tasks is several steps.
- KernelRuns.Allowed: excludes a poll that finds an acceptor and a forward of a caller whose timer is linked (see above).
- KernelObjects.Tables.QueueDelete: wait and ready queues are sequences in the tables; that the pointer code computes the same removals and insertions is proved separately, in IntrusiveQueue.
- KernelObjects.Tables.TimerInsert: in the tables the timer of a task says how its node is linked (not at all, to itself, in the timer queue); TimedKernel ties that to the timer queue itself.
* One state for all components: tasks, semaphores, wait timers, handlers and the clock are one state in
  TimedKernel; the pool, message buffer, port and flag models each have their own waiting tasks. A timeout,
  forced release or termination of one of them is an event of that model, and a priority change is a
  reordering of the queues that are in priority order.
- PoolWaiters.Do: trusts, as the kernel does, that an address inside the pool is the block of some area; the kernel checks the range and the mark only (kernel/mempool.c:473, kernel/mempool.c:198).
- PoolMethods.MemoryPool.constructor: memory comes from the caller, aligned to 8 bytes; sizes are already rounded as i_cre_mpl does it.
- PoolMemory.SplitStored: one cell stands for the 32-bit word at its address; cells between words are data bytes that the kernel does not touch.
- MessageRing.HeaderRoundTrip: the byte order of the header is that of the m68k; the ring does not depend on it.
- MessageExchange.Receive: a waiting sender's message is a value; the kernel keeps a pointer to the sender's memory and copies later.
- MessageExchange.FirstInFirstOut: ends with del_mbf, which releases all waiting tasks with E_DLT and drops the messages held. Buffer sizes are those that do not overflow when rounded.
- RendezvousMethods.Tables.TcalPor: timers are not part of the port model, so the caller's timeout, which the code passes on to the wait for the reply, is not there; it is in KernelRuns (CalRdv) and TimedKernel. In the port model any wait may end from outside, the one for the reply included (EvLeave).
- Rendezvous.Forward: messages are values; that the forwarded message is copied to the caller's own memory is not part of this model.
- TimeCalls.TickFires: set_tim is left out, because it moves the clock and not the events. Of events with equal times the later inserted is first in the queue (TimerEffects.EnqueuePlace); over a tick order is claimed by time. SYSTIME is 64 bits wide and is an unbounded integer here.
- TimeCalls.FireFirstOk: handlers may call def_cyc, act_cyc, def_alm and anything that ends a task's wait; they cannot wait. In TimedKernel they may make any modelled kernel call.
