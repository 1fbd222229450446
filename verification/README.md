# A verified model of the Tokio fiber scheduler

`TokioScheduler` runs many Ruby fibers on one thread. A fiber that would block hands a future to the
scheduler and transfers to the root fiber; `run`, on the root fiber, takes finished futures one at a
time and transfers each result back. This project models that scheduler, and three small mechanisms it
stands on, and proves what holds of every run.

`dafny verify dfyconfig.toml` checks everything. Nothing here executes the original program.

## How it is built

| file | content |
|---|---|
| Scripts.dfy | what a scheduled block does (`Op`), its reference meaning in direct style (`Denote`), half-executed blocks |
| Machine.dfy | the state of scheduler, fibers and tasks; one function for each thing the source does; `Next`, `Runs`, `Reachable` |
| Control.dfy | which fiber executes, who holds the task set, where every task is: all runs, timers included |
| WaitChains.dfy | how suspended fibers wait for tasks and for one another |
| Refinement.dfy | a tree of fibers behaves as its script does when `Fiber.schedule` is a plain call |
| Senders.dfy | `block`, `unblock` and the sender map |
| Listeners.dfy | both ends of every channel: all runs, timers included |
| Progress.dfy | a measure that every action uses up; deadlock, exactly |
| Strands.dfy | which fiber awaits which task, and the fibers failed joins have stranded |
| Conservation.dfy | where the tasks are; the borrow, exactly |
| Errors.dfy | exceptions climbing out of nested schedules; the documented nested order |
| DeadFibers.dfy | late timers and other leftovers of dead fibers; what a timer breaks while its fiber lives |
| Interrupts.dfy | what an interrupt of `run` leaves behind, for good |
| Unblocks.dfy | which unblocks are lost, exactly |
| Aborted.dfy | an abort is final: all runs, timers included |
| Leftovers.dfy | a run in which every block succeeds and `run` fails |
| Answers.dfy | what Fiber.schedule and `run` tell root, and unblock its caller |
| Loop.dfy | one whole call of `run` as a function of what its environment does |
| Scheduler.dfy | `TokioScheduler` as an object over two `GcCell`s; each method proved to do what Machine and Loop say |
| GcCell.dfy, NonBlock.dfy, ProcessWait.dfy, Requeue.dfy | the borrow cell, the flag guard, the child waiter, the re-waking future |

A block is a finite script over `Emit`, `Raise`, `Await`, `Block`, `Unblock`, `Schedule`, `Rescue` and
`TimeoutAfter`. `Await` is any hook that hands an opaque future to `spawn_and_transfer`. Which task
finishes when, with what result, which one panics and when an interrupt arrives are chosen freely by the
environment, one action at a time, while `run` awaits `join_next`.

What the model takes from Ruby and Tokio:

- The root fiber is the thread's main fiber. Hooks are called by other fibers only; `run` and `close` are
  called by root only and not from inside one another.
- `transfer` suspends its caller. A fiber that was transferred to and terminates gives control, or the
  exception that ended it, to root. `raise` on a suspended fiber is a transfer that delivers an exception.
- Tasks are polled only while `run` awaits `join_next`, which yields a task once, and nothing only when
  the set is empty. A task spawned on a runtime that was shut down is cancelled at once. `abort_all` marks
  tasks; they are cancelled when they are next polled.
- A nested fiber does not terminate when its block ends: it stays in its last transfer ("parked").
- The clean-up in `block`'s future asks for the current fiber while it is being polled, so it gets root.
  After a timeout the blocked fiber's sender stays in the map.

`s.timers` counts how often `timeout_after` has started a timer. A timer is never cancelled and raises in
the middle of a poll, with the task set borrowed. The theorems about waiting, refinement, senders,
interrupts and unblocks are about runs with `s.timers == 0`; those of Control, Listeners, Progress,
DeadFibers and Loop (but for RunOkMeansAllComplete), TasksAreConserved and BorrowExactly are about all
runs, as are those of Aborted and, in Answers, what unblock answers.

## What was found

- A fiber rescued from its own `timeout_after` cannot block again: the next hook fails with "already
  borrowed" (`RescuedFiberCannotAwait`). A spawn fails if and only if it happens inside a timer's poll
  (`BorrowExactly`).
- An `unblock` can be lost. After an interrupt the aborted block still holds its receiver, so `unblock`
  returns Ok and the fiber never runs again (`AbortedUnblockIsLost`). An unblock of a blocked fiber reaches
  it if and only if the block's task was not aborted before, does not panic, and is not pending when an
  interrupt comes (`UnblockLostExactly`).
- A timeout that nobody rescues is swallowed when it hits a root-scheduled block: `run` does not return it
  (`UnrescuedTimeoutIsSwallowed`).
- A call that a timeout has cut short still ends some day. If the nested block that made it is complete by
  then and the call has failed, `run` returns that error although every block has succeeded
  (`LeftoverFailsRun`, exactly: `OverButDelivered`).
- Every failed join costs one tree of fibers for good (`WaitingTreesExactly`).
- A future whose pending poll does not wake its own task is never polled again unless somebody else wakes
  it (`LostWithoutWake`); `FiberFuture` wakes itself and never needs anybody (`NeverIdleExactly`).
- Two `NonBlockGuard`s on one descriptor that are dropped in the order they were created leave it
  non-blocking for good (`OverlapIsNotRestored`). Flags are right at all times if and only if the guard
  that found O_NONBLOCK clear goes last (`RightExactly`).
- The comment in `PidWaiter::try_wait` lists pids below -1 as process groups; the code refuses them.
  It accepts exactly the pids from -1 up (`AcceptedPids`).
- `GcCell` counts in 32 bits: it follows its rule if and only if fewer than 2^31 readers are ever alive
  at once (`RuleExactly`).

## Model

Source paths are relative to the repository's root. Rows marked **Main** are the results; the others are the
invariants they rest on, the exact effect of single steps, and the methods of the objects.

| member | source | states |
|---|---|---|
| Scripts.FlatRunIsDenote | ext/shreduler/src/tokio_scheduler/fiber_spawn.rs:20-31 | **Main.** for every block, continuation and sequence of results, running the block's operations in front of what is left gives the block's direct-style meaning followed by what is left, errors and rescues included: nesting by inlining agrees with nesting by calling |
| Control.NextControlled | ext/shreduler/src/tokio_scheduler/close.rs:28-68 | every action, timers included, keeps: one fiber executes and it is the current one, the task set is borrowed exactly while `run` awaits join_next or a poll is under way, every spawned task is in the set or was joined but not both |
| Control.ReachableControlled | ext/shreduler/src/tokio_scheduler/close.rs:28-68 | **Main.** the same of every state of every run |
| Control.EnvironmentFrame | ext/shreduler/src/tokio_scheduler/close.rs:31-41 | a task that finishes, panics or is cancelled, and an interrupt, change no fiber, no owner and no history; only an interrupt ends `run`, and it releases the borrow |
| Control.SuspendedExactly | ext/shreduler/src/fiber.rs:189-200 | in every reachable state check_suspended passes exactly for a fiber that stands in a transfer of its own, says "not alive" exactly for a terminated one and "active" exactly for the one that runs |
| WaitChains.NextChained | ext/shreduler/src/tokio_scheduler.rs:118-142 | every action keeps the wait chains: links between parent and child agree in both directions, and a task's owner is suspended on that very task |
| WaitChains.WaitsInOneWay | ext/shreduler/src/tokio_scheduler.rs:118-142 | **Main.** every suspended live fiber is exactly one of: owner of one task, parent of one unfinished child, parked, stranded by a failed join |
| WaitChains.ChainsEnd | ext/shreduler/src/tokio_scheduler/fiber_spawn.rs:14-37 | **Main.** from every unfinished fiber the chain of children is finite and ends at the current fiber, at the owner of one task, or at a stranded fiber |
| WaitChains.ChainEnd | ext/shreduler/src/tokio_scheduler/fiber_spawn.rs:14-37 | the end of a chain is a fiber of the same tree that waits for no child, and an unfinished fiber's chain ends at an unfinished fiber |
| WaitChains.LinksInjective | ext/shreduler/src/tokio_scheduler/fiber_spawn.rs:15-36 | nobody has two unfinished children |
| WaitChains.ParentWaitsForChild | ext/shreduler/src/tokio_scheduler/fiber_spawn.rs:33-36 | as long as a nested block is unfinished, the fiber that scheduled it stands at its transfer to that child and does not run |
| WaitChains.TransfersAreSafe | ext/shreduler/src/fiber.rs:189-200 | **Main.** in every reachable state the checks before transferring to root, back to a parent and to a finished task's owner succeed |
| WaitChains.HookSuspends | ext/shreduler/src/tokio_scheduler.rs:118-133 | a hook's spawn and transfer never fail without a timer: exactly one new task, owned by the caller, which is now suspended on it, and nothing else changes; root goes on from where it stood: Fiber.schedule returns, or `run` goes round its loop |
| WaitChains.BlockSuspends | ext/shreduler/src/tokio_scheduler/block_unblock.rs:17-49 | `block` leaves a fresh channel whose sender is in the map under the caller and whose receiver is in the caller's one new task |
| WaitChains.NestedBodyReturns | ext/shreduler/src/tokio_scheduler/fiber_spawn.rs:22-30 | the end of a nested block, by value or by exception, resumes exactly the fiber waiting for it, with that outcome, and parks the child; the check before it cannot fail |
| WaitChains.RootBodyEnds | ext/shreduler/src/tokio_scheduler/fiber_spawn.rs:17-18 | the end of a root-scheduled block terminates its fiber, touches no other fiber and no task, and hands root its outcome: Fiber.schedule returns it; in `run` an error is returned, and after a value the loop goes on with the set borrowed again |
| Control.ToRootHears | ext/shreduler/src/tokio_scheduler/close.rs:45-55 | what root makes of control coming back with a value or an error, in each place it can stand in, including a timer's raise, whose task ends with it |
| WaitChains.JoinDelivers | ext/shreduler/src/fiber_future.rs:27-44 | **Main.** a joined task resumes the fiber that spawned it at its present suspension point, alive and suspended, with that task's outcome; the set is released first and no other fiber moves |
| WaitChains.JoinStrands | ext/shreduler/src/tokio_scheduler/close.rs:58-60 | a task that cannot be joined leaves the set, resumes nobody, and `run` goes on waiting |
| WaitChains.DrainCompletes | ext/shreduler/src/tokio_scheduler/close.rs:61-64 | when join_next finds the set empty and no join has failed, `run` returns Ok and every block scheduled so far, at any depth, is complete |
| Refinement.TreesRunSequentially | ext/shreduler/src/tokio_scheduler/fiber_spawn.rs:14-37 | **Main.** main refinement: for every reachable state and every root-scheduled script, the events of its whole tree of fibers are a prefix of the script's sequential meaning on the results received, all of them unless the tree is running, and the tree ends, fails or waits exactly as the sequential meaning does |
| Refinement.NextSequential | ext/shreduler/src/tokio_scheduler/close.rs:28-68 | every action keeps the refinement relation for every tree at once |
| Refinement.DeliverSequential | ext/shreduler/src/tokio_scheduler/close.rs:43-57 | delivering a task's outcome keeps it: the resumed tree has received exactly that outcome and goes on as its script would |
| Senders.ReachablePaired | ext/shreduler/src/tokio_scheduler/block_unblock.rs:22-46 | **Main.** in every reachable state each pending unsignalled block has its sender in the map under its own fiber, and every other entry is stale |
| Senders.CurrentOwnsNothing | ext/shreduler/src/tokio_scheduler/block_unblock.rs:22-29 | a running fiber has no task outstanding and re-blocking overwrites at most a stale sender of its own |
| Senders.PendingBlockKeepsSender | ext/shreduler/src/tokio_scheduler/block_unblock.rs:31-38 | a block can only end by being unblocked, with true, or by its timeout: "sender dropped" is unreachable |
| Senders.FinishExactly | ext/shreduler/src/tokio_scheduler/block_unblock.rs:41-45 | in every run, timers included: whenever a task is polled to its end, root is current and has no sender in the map, so the clean-up removes nothing and a timed-out block leaves its own sender behind |
| Senders.UnblockExactly | ext/shreduler/src/tokio_scheduler/block_unblock.rs:59-72 | **Main.** `unblock` signals the target's pending block if there is one, is a no-op without an entry, and on a stale sender fails and wakes nobody; it never switches fibers |
| Unblocks.UnblockLostExactly | ext/shreduler/src/tokio_scheduler/block_unblock.rs:59-72 | **Main.** an unblock issued while its target is blocked returns Ok and repeating it changes nothing; over every later run the task can then end only with true, or has, if and only if it was not aborted before, does not panic and is not pending at an interrupt; otherwise, and only then, the fiber never runs again |
| Unblocks.UnblockedIsResumed | ext/shreduler/src/tokio_scheduler/block_unblock.rs:59-72 | **Main.** in every run from such an unblock that goes on until nothing can happen, or that empties the set, the fiber has been given true under that condition, and its task has failed to join without it |
| Unblocks.AbortedUnblockIsLost | ext/shreduler/src/tokio_scheduler/close.rs:35-39 | a reachable state, after an interrupt, in which `unblock` returns Ok to root and the blocked fiber stays suspended in every later state of every run |
| Listeners.ReachableListening | ext/shreduler/src/tokio_scheduler/block_unblock.rs:22-46 | in every reachable state, timers included, each pending block has its receiver, on a channel that is nobody else's; a channel is open exactly as long as its sender is in the map and its block is pending |
| Listeners.BlockEndsExactly | ext/shreduler/src/tokio_scheduler/block_unblock.rs:31-46 | **Main.** how a pending block can end, in every run: by its timeout as long as its sender is in the map, with true once the sender was used, and for want of a sender exactly if it was neither |
| Listeners.HookEndsAnyhow | ext/shreduler/src/fiber_future.rs:75-79 | a hook's future can end with every value and every error, and the task is finished with that outcome |
| Progress.NextWork | ext/shreduler/src/tokio_scheduler/close.rs:30-66 | every action but the root program's own strictly lowers a measure on remaining operations, tasks and pending transfers |
| Progress.RunsAreBounded | ext/shreduler/src/tokio_scheduler/close.rs:28-68 | **Main.** no run of the scheduler and its environment is longer than the work there was, timers included |
| Progress.DeadlockExactly | ext/shreduler/src/tokio_scheduler/close.rs:34 | **Main.** in every run, timers included: while `run` has not returned, nothing can happen if and only if every remaining task is an unsignalled block with no timeout |
| Progress.RunReturnsOrDeadlocks | ext/shreduler/src/tokio_scheduler/close.rs:28-68 | **Main.** every run continued until nothing can happen is finite and ends with `run` returned or in that deadlock |
| Conservation.TasksAreConserved | ext/shreduler/src/tokio_scheduler/close.rs:31-65 | **Main.** over whole runs, across every exit: tasks spawned = in the set + delivered + dropped for a dead fiber + failed to join |
| Conservation.WaitingTreesExactly | ext/shreduler/src/tokio_scheduler.rs:118-142 | **Main.** tasks in the set + failed joins = unfinished trees that are not running |
| Conservation.OneTaskPerWaitingTree | ext/shreduler/src/tokio_scheduler.rs:118-142 | so without a failed join the set has as many tasks as there are unfinished trees that are not running |
| Strands.ReachableStranding | ext/shreduler/src/tokio_scheduler/close.rs:58-60 | in every reachable state no two fibers await the same task, and each task that failed to join still has the fiber it stranded |
| Conservation.BorrowExactly | ext/shreduler/src/tokio_scheduler/close.rs:31-41 | **Main.** the task set is free after every exit of `run`; without timers it is held exactly while `run` awaits join_next; a spawn fails if and only if it happens inside a timer's poll |
| Errors.ErrorClimbs | ext/shreduler/src/tokio_scheduler/fiber_spawn.rs:22-30 | an exception no fiber of the chain handles moves from a nested fiber to its parent, unchanged, one level up |
| Errors.UnrescuedErrorReachesRoot | ext/shreduler/src/tokio_scheduler/close.rs:52-55 | **Main.** an exception with no handler at depth n passes one parent per step, and n steps later the root call in progress, `run` or `Fiber.schedule`, has returned it and the tree has ended with it |
| Errors.NestedScriptMeaning | spec/fiber_scheduler_spec/fiber_scheduler_spec/nested_fiber_schedule.rb:18-30 | the reference meaning of the specified nested schedule, when it ends without error, shows 1, 3, 4, 6, 5 |
| Errors.NestedOrder | spec/fiber_scheduler_spec/fiber_scheduler_spec/nested_fiber_schedule.rb:18-39 | **Main.** in every reachable state where the fibers of that script have ended without error they have shown 1, 3, 4, 6, 5, whatever else was running |
| Answers.StepHeard | ext/shreduler/src/tokio_scheduler/fiber_spawn.rs:14-37 | every step of a fiber leaves control in its tree, or suspends the tree, or ends it with a verdict, and root hears exactly that |
| Answers.ScheduleAnswers | ext/shreduler/src/tokio_scheduler/fiber_spawn.rs:33-36 | **Main.** Fiber.schedule called by root returns an error exactly if the tree it started has ended with that error, and a value exactly if the tree has ended with one or waits |
| Answers.RunErrorsExplained | ext/shreduler/src/tokio_scheduler/close.rs:43-57 | **Main.** why a call of `run` returns an error, exactly: a tree that fails during the call ends it with its error, and an error is that of such a tree or of an interrupt |
| Answers.UnblockAnswers | ext/shreduler/src/tokio_scheduler/block_unblock.rs:59-72 | **Main.** in every reachable state and for every target, unblock says "no conversion", "not alive", "active", "could not unblock" or Ok according to whether the target is no fiber, dead, running, suspended with a stale entry, or suspended otherwise; with the effect on map and channels in each case |
| Answers.FiberHearsAnswer | ext/shreduler/src/tokio_scheduler/block_unblock.rs:59-72 | a fiber that calls unblock goes on at once with that answer as result, and as exception if it is an error |
| Answers.RootHearsAnswer | ext/shreduler/src/tokio_scheduler/block_unblock.rs:59-72 | a call by root returns that answer |
| DeadFibers.JoinedOnceDeadForever | ext/shreduler/src/tokio_scheduler/close.rs:43-57 | over any run, timers included, a joined task keeps its fate and never is in the set again, and a terminated fiber stays terminated |
| DeadFibers.DeadFibersAreInert | ext/shreduler/src/tokio_scheduler/timeout_after.rs:24-32 | **Main.** after a fiber has terminated, in every later state each task it left, late timers included, drains without running a fiber or ending `run` |
| DeadFibers.LateTimersAreInert | ext/shreduler/src/tokio_scheduler/timeout_after.rs:24-32 | **Main.** a timer that outlives its nested block ends the parked fiber when it fires and does nothing else; `run` goes on, and the timer's task is dropped |
| DeadFibers.TimerRaisesUnderBorrow | ext/shreduler/src/tokio_scheduler/timeout_after.rs:24-32 | in every state where a timer fires on a fiber suspended in a hook or in a nested schedule, the fiber runs with the timeout error in the middle of the poll, its own task still in the set, and its next spawn fails |
| DeadFibers.TimeoutStartsExactly | ext/shreduler/src/tokio_scheduler/timeout_after.rs:21-41 | timeout_after raises "already borrowed" and skips its block exactly inside a timer's poll; otherwise it starts one timer of the calling fiber and goes on with the block |
| DeadFibers.HooksRefused | ext/shreduler/src/tokio_scheduler.rs:123-125 | inside a timer's poll every hook fails with "already borrowed" and the fiber goes on; a block leaves a sender without receiver in the map |
| DeadFibers.BlockEndsForRoot | ext/shreduler/src/tokio_scheduler/fiber_spawn.rs:17-18 | the end of a root-scheduled block, timers or not: the fiber dies and root hears the outcome |
| DeadFibers.BlockEndsForParent | ext/shreduler/src/tokio_scheduler/fiber_spawn.rs:22-30 | the end of a nested block, timers or not, for every state its parent may be in: dead, parked, awaiting, nesting |
| DeadFibers.UnrescuedTimeoutIsSwallowed | ext/shreduler/src/tokio_scheduler/timeout_after.rs:29-31 | an unrescued timeout in a root-scheduled block ends as the outcome of the timer's own task, which is dropped; `run` goes on |
| DeadFibers.OverButDelivered | ext/shreduler/src/fiber_future.rs:27-44 | an outcome delivered to a fiber whose nested block is over ends the fiber, and ends `run` exactly if it is an error |
| Leftovers.LeftoverFailsRun | ext/shreduler/src/fiber_future.rs:37-41 | a reachable state in which every tree has ended with a value and `run` returns the error of a call that a timeout had cut short |
| DeadFibers.RescuedFiberCannotAwait | ext/shreduler/src/tokio_scheduler/timeout_after.rs:24-34 | a reachable state in which a fiber that rescued its timeout runs with the task it awaited still outstanding, and its next hook fails with "already borrowed" |
| Interrupts.InterruptedNeverResumes | ext/shreduler/src/tokio_scheduler/close.rs:35-39 | **Main.** an interrupt makes `run` return its error with the set free and complete; over every later run a task that was pending is never delivered and its fiber never runs again, and no later `run` is kept waiting by it |
| Interrupts.StrandedForever | ext/shreduler/src/tokio_scheduler/close.rs:58-60 | a fiber whose task failed to join stays suspended on it in every later state |
| Aborted.AbortedOnlyFails | ext/shreduler/src/tokio_scheduler/close.rs:35-39 | **Main.** over every run, timers included, a task pending at an interrupt can only fail to join: its future never ends, its timer never raises, it is neither delivered nor dropped |
| Loop.ClosesExactly | ext/shreduler/src/tokio_scheduler/close.rs:14-24 | **Main.** after any call the runtime is gone if and only if it was before or the call was a `close` that returned Ok |
| Loop.RunLoopRuns | ext/shreduler/src/tokio_scheduler/close.rs:28-68 | whatever the loop of `run` does is a run of the state machine |
| Loop.RunLoopIsComplete | ext/shreduler/src/tokio_scheduler/close.rs:28-68 | **Main.** and every run of the state machine from a waiting `run` to its return is what the loop does with the events of that run: the loop misses nothing |
| Loop.RunCallIsReachable | ext/shreduler/src/tokio_scheduler/close.rs:28-68 | so the state any call of `run` leaves, by any exit, is reachable, and every theorem holds of the next call |
| Loop.OkMeansEmpty | ext/shreduler/src/tokio_scheduler/close.rs:61-64 | `run` returns Ok only with the set empty |
| Loop.NothingToRun | ext/shreduler/src/tokio_scheduler/close.rs:61-64 | with an empty set and no interrupt `run` and `close` return Ok at once, and `close` gives up the runtime |
| Loop.ClosedRuntimeRefuses | ext/shreduler/src/tokio_scheduler.rs:110-116 | on a runtime that is gone `run` and `close` return "runtime is closed" and change nothing else |
| Loop.RoundExitsWithError | ext/shreduler/src/tokio_scheduler/close.rs:35-55 | leaving the loop in any other way returns an error |
| Loop.RunOkMeansAllComplete | ext/shreduler/src/tokio_scheduler/close.rs:28-68 | **Main.** after a call of `run`, or of `close`, that returned Ok without failed joins or timers, the set is empty and free and every block ever scheduled is complete, including what earlier calls that returned an error left behind |
| Scheduler.TokioScheduler.constructor | ext/shreduler/src/tokio_scheduler.rs:69-86 | a new scheduler is in the initial state, both cells free |
| Scheduler.TokioScheduler.FiberImpl | ext/shreduler/src/tokio_scheduler/fiber_spawn.rs:14-37 | whole new state: the state machine's fiber_impl, root and nested |
| Scheduler.TokioScheduler.EndBody | ext/shreduler/src/tokio_scheduler/fiber_spawn.rs:22-30 | whole new state after the wrapped or unwrapped block has ended |
| Scheduler.TokioScheduler.TransferTo | ext/shreduler/src/fiber.rs:145-187 | whole new state after transfer or raise to a suspended fiber, wherever it was suspended |
| Scheduler.TokioScheduler.Spawn | ext/shreduler/src/tokio_scheduler.rs:136-142 | the cell refuses exactly when the state machine says borrowed; otherwise one task more and the borrow released |
| Scheduler.TokioScheduler.SpawnAndTransfer | ext/shreduler/src/tokio_scheduler.rs:119-133 | whole new state, with both failure paths |
| Scheduler.TokioScheduler.Block | ext/shreduler/src/tokio_scheduler/block_unblock.rs:17-49 | whole new state of map, channels, set and fibers |
| Scheduler.TokioScheduler.Unblock | ext/shreduler/src/tokio_scheduler/block_unblock.rs:59-72 | whole new state and result, including not a fiber, not suspended, no entry and stale sender |
| Scheduler.TokioScheduler.FinishTask | ext/shreduler/src/tokio_scheduler/block_unblock.rs:31-46 | whole new state after a task was polled to its end, with block's clean-up as written |
| Scheduler.TokioScheduler.PollTimer | ext/shreduler/src/tokio_scheduler/timeout_after.rs:24-32 | whole new state after a timer's poll, raising under the borrow |
| Scheduler.TokioScheduler.TimeoutAfter | ext/shreduler/src/tokio_scheduler/timeout_after.rs:15-42 | whole new state: the timer's task is spawned, or the error is raised and the block not run |
| Scheduler.TokioScheduler.Interrupted | ext/shreduler/src/tokio_scheduler/close.rs:35-39 | whole new state: pending tasks marked, borrow released, error returned |
| Scheduler.TokioScheduler.Joined | ext/shreduler/src/tokio_scheduler/close.rs:43-60 | whole new state for each outcome of a join |
| Scheduler.TokioScheduler.CanHappen | ext/shreduler/src/tokio_scheduler/close.rs:33-40 | the object's fields decide exactly which events the state machine allows while `run` waits |
| Scheduler.TokioScheduler.RunUntilRoot | ext/shreduler/src/tokio_scheduler/close.rs:45 | the fibers a delivery wakes run until control is back at root; it terminates |
| Scheduler.TokioScheduler.AwaitTasks | ext/shreduler/src/tokio_scheduler/close.rs:30-66 | the loop of `run`, against the function RunLoop of the state and of what the environment does |
| Scheduler.TokioScheduler.Run | ext/shreduler/src/tokio_scheduler/close.rs:28-68 | **Main.** a call of `run` is RunCall; when it has returned the task set is free, and empty if it returned Ok; on a runtime that is gone it fails at once and touches no task |
| Scheduler.TokioScheduler.Close | ext/shreduler/src/tokio_scheduler/close.rs:14-24 | a call of `close` is the same call, with the same promises; an open runtime is given up exactly on Ok, and a second close fails |
| GcCells.GcCell.TryBorrow | ext/shreduler/src/gc_cell.rs:34-41 | granted exactly when no writer is alive, counters keep counting guards |
| GcCells.GcCell.TryBorrowMut | ext/shreduler/src/gc_cell.rs:45-54 | granted exactly when no guard is alive |
| GcCells.GcCell.DropRef | ext/shreduler/src/gc_cell.rs:114-118 | one reader fewer, counters keep counting guards |
| GcCells.GcCell.DropRefMut | ext/shreduler/src/gc_cell.rs:120-124 | one writer fewer, counters keep counting guards |
| GcCells.CountersCountGuards | ext/shreduler/src/gc_cell.rs:34-54 | over every history the counters are the guards alive, modulo 2^32; with none alive the cell is as new |
| GcCells.CellRefinesRule | ext/shreduler/src/gc_cell.rs:34-54 | over every history with fewer than 2^31 readers at once, a writer excludes everybody and every operation is granted exactly when the single-writer/many-readers rule allows it |
| GcCells.RuleExactly | ext/shreduler/src/gc_cell.rs:34-54 | **Main.** the cell follows the rule all along a history if and only if fewer than 2^31 readers are ever alive at once |
| GcCells.WriterAmongReaders | ext/shreduler/src/gc_cell.rs:45-54 | with n readers alive a writer gets in exactly when n wraps to zero or below; 2^31 readers do it |
| NonBlock.NonBlockGuard.constructor | ext/shreduler/src/ruby_io.rs:231-246 | saves the known flags and sets O_NONBLOCK, within what F_SETFL changes |
| NonBlock.NonBlockGuard.Drop | ext/shreduler/src/ruby_io.rs:249-253 | writes the saved flags back |
| NonBlock.OtherBitsNeverChange | ext/shreduler/src/ruby_io.rs:230-253 | for any interleaving of guards on one descriptor, known bits other than O_NONBLOCK never change |
| NonBlock.NestedGuardsRestore | ext/shreduler/src/ruby_io.rs:230-253 | for last-in-first-out drops O_NONBLOCK stays set while a guard lives, and all known flags are back when none does |
| NonBlock.NonBlockingExactly | ext/shreduler/src/ruby_io.rs:230-253 | for any order, O_NONBLOCK is set whenever a guard lives if and only if no guard that found it clear is dropped before another live one |
| NonBlock.RightExactly | ext/shreduler/src/ruby_io.rs:230-253 | **Main.** under that same condition, and only then, it is also back to its original value whenever no guard lives |
| NonBlock.OverlapIsNotRestored | ext/shreduler/src/ruby_io.rs:249-253 | two guards dropped in creation order leave the descriptor non-blocking for good |
| ProcessWait.AcceptedPids | ext/shreduler/src/tokio_scheduler/process_wait.rs:60-75 | for every 32-bit pid, wrap-around included: accepted if and only if at least -1 |
| ProcessWait.PidWaiter.TryWait | ext/shreduler/src/tokio_scheduler/process_wait.rs:50-93 | bad flags and bad pids are errors, in that order, a bad pid being one below -1; a status is reported exactly when both are good and waitpid no longer says "not yet" |
| ProcessWait.PidWaiter.Poll | ext/shreduler/src/tokio_scheduler/process_wait.rs:162-191 | **Main.** with events between any two of its calls: ready only if the child is done; pending only with a wake arranged and the child, as last asked, not done; at most one round more than signals received |
| ProcessWait.EventsKeepWake | ext/shreduler/src/tokio_scheduler/process_wait.rs:163-190 | no sequence of child exits and signals loses a registered wake |
| ProcessWait.NoExitIsMissed | ext/shreduler/src/tokio_scheduler/process_wait.rs:162-191 | **Main.** after a pending poll, whatever happens, if the child has ended then the task was woken or the signal that wakes it is on its way |
| Requeue.FiberFuture.Poll | ext/shreduler/src/fiber_future.rs:64-87 | a result goes out with the fiber that made the future; a pending poll leaves its running task with a wake noted |
| Requeue.NeverIdleExactly | ext/shreduler/src/fiber_future.rs:81-84 | **Main.** over every history of spawns, polls and wakes by anybody, a task never waits for a wake if and only if each of its pending polls was one during which it was woken |
| Requeue.UnfinishedStaysQueued | ext/shreduler/src/fiber_future.rs:64-87 | a task whose polls wake it is, until a poll of it has returned ready, being polled or in the queue exactly once |
| Requeue.LostWithoutWake | ext/shreduler/src/fiber_future.rs:81-84 | without the wake there is a history after which the task is idle and never polled again for as long as nobody else wakes it |

## Left out

- Refinement.TreesRunSequentially: like WaitChains, Senders, Strands, Interrupts and Unblocks, it is about runs in which `timeout_after` has started no timer; with a timer the wait chains it rests on break, because a timer resumes a fiber whose own task is still outstanding, with the task set borrowed (`RescuedFiberCannotAwait`).
- Answers.RunErrorsExplained: about calls during which no timer has been started, as ScheduleAnswers is; with timers `run` can swallow a tree's error (`UnrescuedTimeoutIsSwallowed`) and can return one that is no tree's (`LeftoverFailsRun`), so neither half holds.
- GcCells.CellRefinesRule: assumes fewer than 2^31 live readers; `RuleExactly` shows that the bound is needed.
- ProcessWait.PidWaiter.Poll: `waitpid` is an oracle for "done", so a status it reports once to another waiter is not modelled; flags that make it block are not modelled either.
- Cancelling a timer: the source drops the abort handle, so no claim is made that a block finishing before its deadline is left alone.
- Scripts are finite and their values abstract: loops and branches inside Ruby code, and the arguments hooks get, are not modelled.
- Hooks called from the root fiber, from another thread, or `run` called inside `run`.
- The values `Fiber.schedule` and `block` hand to Ruby code, other than outcome and error: logging, the fiber object returned by `Fiber.schedule`, what a nested block returns on success.
- Ruby code of signal handlers, `Error::Jump` and task panics appear only as an interrupt, an error or a failed join.
- Which task the runtime polls next and how long it takes: the environment chooses freely, without fairness.
- `io_read`, `io_write`, `io_wait`, `io_select`, `address_resolve` and `kernel_sleep`: opaque futures here; their own logic is buffer and argument handling.
- Garbage-collection marking, and what keeps a fiber held only by a task alive.
- Translation of pids, flags and statuses, `ProcessStatus`, `BackingIo`, `RubyIoBuffer`, error classes: library plumbing.
- True parallelism on a `GcCell`: its load and its add are one step here, as they are under the VM lock.
- The inside of Tokio: timers, reactor, oneshot channels and JoinSet appear by their contracts.
- `fcntl` failing inside `NonBlockGuard`: the constructor then returns an error and no guard exists.
