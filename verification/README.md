# Verified models of an M-mode RISC-V monitor

The monitor runs in M-mode and hands S-mode software its harts, domains, fences, events and
messages. Its hardest code is a set of small concurrent protocols that harts run against
each other with locks and atomics, and a few algorithms that other code trusts. This
project models them in Dafny and proves what they promise.

A protocol is a step function: what one hart does between two points where another can
interfere, that is a section under a lock or one atomic access. A run is any interleaving of
steps, of any length, with any number of harts, domains and messages; the atomics are
sequentially consistent. Invariants are proved of every step and then of every run, and where
something is promised to happen, of every endless run in which all harts keep running.
Code that works on tables in place is also given as classes, whose methods are proved to be
the step, or the function, that the proofs are about; of these the table names the entry points and the
ones that search or work through a table.

| files | what they model |
|---|---|
| `DomainModel`, `DomainCode` | contexts, enter, exit, stop, start, hart state management and the message bridge |
| `DomainPlacement`, `DomainStop`, `DomainCalls` | where harts are; what a stop leaves; calls between domains and the messages that travel with them |
| `DomainMoves`, `DomainAway`, `DomainMail`, `DomainLeave` | who may go where; what a hart finds when it is back; messages from where they arrive; the way out of a stopped domain |
| `DomainUp`, `DomainHsm`, `DomainReset` | the state kept of a hart against what it does, and its history; what a reset of a domain's events can meet |
| `RfenceModel`, `RfenceCount`, `RfenceProgress`, `RfenceReturn` | remote fences over inter-processor interrupts: the counts, progress, and that requests return |
| `SseModel`, `SseCode`, `SseLife`, `SseKick`, `SseNest` | supervisor software events: the life of an event, the kick flag, and nested injection and completion |
| `Doorbell` | the doorbell flag of an RPMI context against its lock |
| `ReqfwdQueue`, `ReqfwdProtocol` | the queue of forwarded messages, as a linked list and as a protocol |
| `PmpModel`, `PmpCode`, `RegionTables` | memory protection entries, the tables behind them, and the software check |
| `Dbtr` | placement of debug triggers |
| `EventBuffer` | the notification event buffer |
| `ShmemRing` | the shared memory ring |
| `Misaligned` | misaligned loads and stores |
| `Division`, `Bits`, `Options` | 64-bit division, words as numbers, and a small datatype |

Parameters of the models: the harts that take interrupts when an event becomes pending
(any set), what S-mode does to its registers (anything, except where a property is about
handlers that leave state alone), what trigger registers hold once written (any function),
what each read of memory shared with an agent gives (anything), how long a client holds a lock or a queue drains (any finite time), when a
deadline passes (any time), and the width of a pmpaddr register. In the domain model a hart's
id is its index.

## Where the code and the claim part

- An enabled, pending event of a hart's domain has the kick flag up in every reachable state
  but one kind: after the hart has changed domain and before the switch-in has stored the
  flag. `SseKick.SwitchWindow` is a run that gets there. A change of domain has no such window
  if and only if the flag is up or no event waits in the other domain
  (`SseKick.SwitchJustWhen`); in every reachable state an event is without its flag if and only
  if the hart is still in a window that began so (`SseKick.LostJustWhen`), which ends with the
  flag up (`SseKick.WindowCloses`).
- A hart in S-mode is STARTED, except one that was on its way up, or awake from a sleep that keeps
  nothing, in a called domain that another hart then stops: it is back in its caller's S-mode in
  the state it was in. `DomainUp.SuspendedInSmode` is a run that ends SUSPENDED in S-mode, and
  `DomainUp.StartedJustWhen` proves that a run keeps the property if and only if no step of it is
  of that kind.
- A domain is started when it is not running, and its events are reset behind that check. Two starts
  at once can reset the events of a domain that runs: `DomainReset.ResetMeetsHart`. From a state in
  which no hart of the domain is up, one gets up by a later state if and only if somebody was let in
  by then (`DomainReset.AliveJustWhen`). The reset of a stop meets nobody
  (`DomainReset.StopResetsAlone`).
- The software range check and the programmed entries agree on the ranges that the entries
  reach, which is twice the memory that pmpaddr registers can name, unless a monitor region ends
  with the address space and has the wrong shape: a TOR pair where the address space is smaller
  than the word, a NAPOT entry where it is not. They still agree if every byte of such a region
  is in another one that both see. `PmpAgree.EndsSeen` is that condition on the list of regions,
  `PmpAgree.EndUnseen` a list that fails it, and `PmpAgree.CheckAgreesJustWhen` proves that it is exact. A range that goes further the
  entries always deny (`PmpAgree.PastIsDenied`), and the check allows it just when the first
  domain region it meets is the one of all addresses and grants it, and no monitor region is
  in the way (`PmpAgree.PastIsChecked`). So on all ranges below the top of the word they agree,
  for the root domain, if and only if `EndsSeen` holds and the entries reach that far
  (`PmpAgree.AllAgreeJustWhen`).
- A monitor region that wraps and has a neighbour in the table is not added
  (`RegionTables.WrappedIsLost`); the contract of `RegionTables.MemRegions.Add` says exactly when.
- The decoder of misaligned accesses takes two reserved forms besides the encodings of loads and
  stores: a load of funct3 7, such as 0x7003, and c.sh with bit 6 set, such as 0x8c40.
  `Misaligned.TakesJust` proves that it takes these and no other.
- A server that has read the beginning of a forwarded message which then times out, and reads on
  from an offset, reads the next message, and its completion answers that one: `ReqfwdProtocol.AnsweredUnread`.
  `ReqfwdProtocol.AnsweredFromTheStart` says exactly when an answered message was read from its
  first byte.
- What a debug trigger holds is compared with what was asked for in tdata1 only, so a configuration
  counts as accepted whatever became of tdata2 and tdata3 (`Dbtr.HeldOtherwise`): it is held as asked
  for if and only if these are (`Dbtr.HeldAsAsked`). A free trigger that a failed call tried keeps
  what was written there. Enabling and disabling read nothing back.
- `__divdi3` gives the truncated quotient, but for the one an `int64_t` cannot hold:
  `Division.WrapsOnce`.
- The comment on the event buffer's loss counter promises a number of lost events. The counter
  has 32 bits, so the number reported is that count modulo 2^32: it is right if and only if fewer than
  2^32 were lost (`EventBuffer.LossIsExact`), and zero for 2^32 (`EventBuffer.LossWraps`).

## Model

| member | source | states |
|---|---|---|
| DomainPlacement.PlacementHolds | arch/riscv/runtime/domain_context.c:489-784 | In every reachable state a hart is assigned to exactly its own domain, is parked in a domain just when its context there is CALLING or IDLE, only its own domain's context can be RUNNING, and every context that has run is in a domain the hart may run. |
| DomainPlacement.StepKeeps | arch/riscv/runtime/domain_context.c:489-924 | Every step, stop and start included, keeps that placement. |
| DomainPlacement.ParkKeeps | arch/riscv/runtime/domain_context.c:530-539 | Parking keeps the masks in step with the contexts, and changes no other hart and no other context. |
| DomainPlacement.RestoreKeeps | arch/riscv/runtime/domain_context.c:489-528 | Taking over a context that the hart may run restores the full placement. |
| DomainPlacement.SwitchKeeps | arch/riscv/runtime/domain_context.c:588-620 | So does a whole context switch, to a context that has run or not. |
| DomainPlacement.EnterKeeps | arch/riscv/runtime/domain_context.c:627-665 | So does an enter that the checks let through. |
| DomainPlacement.LeaveKeeps | arch/riscv/runtime/domain_context.c:707-762 | So does an exit or a switch back. |
| DomainPlacement.LeaveToPossible | arch/riscv/runtime/domain_context.c:707-762 | Where an exit goes is another domain, and one the hart may run. |
| DomainPlacement.StopSelfKeeps | arch/riscv/runtime/domain_context.c:852-871 | So does a hart that leaves a domain being stopped. |
| DomainPlacement.RaiseKeeps | arch/riscv/runtime/domain_context.c:881-893 | Dropping the waiting contexts of a domain takes exactly their harts out of its parked mask. |
| DomainPlacement.ForgetKeeps | arch/riscv/runtime/domain_context.c:810-831 | Forgetting the contexts of a domain that has no parked hart keeps the placement. |
| DomainStop.StopIsDone | arch/riscv/runtime/domain_context.c:873-924 | When domain_stop() lowers the flag: every valid hart assigned to the domain is STOPPED, but for the caller if the domain is its own, none is parked in it, no context of it waits, and from the step that raised the flag until now the flag was up and no enter, exit or start let a hart in. |
| DomainStop.LowerIsDone | arch/riscv/runtime/domain_context.c:899-919 | What the scan has found when it ends is true at that moment, not only when it looked. |
| DomainStop.StopInvHolds | arch/riscv/runtime/hsm.c:132-199 | In every reachable state: the start and stop locks have the owners the code says, a start that has seen STOPPED still reads right, a domain being stopped has no waiting context, past the barrier no start into it is under way, and what the scan has found quiet is quiet. |
| DomainStop.StepStops | arch/riscv/runtime/domain_context.c:645-654 | Every step keeps that, lets no hart into a domain being stopped, and only domain_stop() raises a flag. |
| DomainStop.RaisedBefore | arch/riscv/runtime/domain_context.c:873-893 | A stop that is under way has one step that raised its flag, and nobody got in since. |
| DomainStop.BootStops | arch/riscv/runtime/hsm.c:132-173 | A hart start keeps the invariant at each of its accesses: it lets nobody into a domain whose flag it reads as up. |
| DomainStop.RaiseDrops | arch/riscv/runtime/domain_context.c:884-892 | A stop drops exactly the contexts that wait in the domain, with their caller links. |
| DomainStop.StartForgets | arch/riscv/runtime/domain_context.c:828-830 | A start resets the state of every context of the domain, and nothing else of any. |
| DomainStop.ScanFinds | arch/riscv/runtime/domain_context.c:899-913 | Each access of the scan over the harts keeps what the scan has found. |
| DomainLeave.OwnStopEnds | arch/riscv/runtime/domain_context.c:919-923 | In every run, a hart at the end of a stop of its own domain is not in S-mode there and makes no call from there until it is let in again; after two steps of its own it has no context of the domain left, and is in another domain or STOPPED or on its way to that. |
| DomainLeave.SelfStopLeaves | arch/riscv/runtime/domain_context.c:852-871 | In every run, a hart that leaves a stopped domain has no context of it any more; if its caller waits it is there, in S-mode, with its call failed and the rest as the call left it, else it is to stop. |
| DomainLeave.ForcedStops | arch/riscv/runtime/hsm.c:193-198 | A hart that is to stop is STOP_PENDING and then STOPPED, in the domain it is in. |
| DomainLeave.OnlyStopsSend | arch/riscv/runtime/domain_context.c:774-784 | In every run, a hart is sent out of its domain only if it was in it since a moment when that was being stopped. |
| DomainLeave.OtherStopReturns | arch/riscv/runtime/domain_context.c:919-923 | A hart that has stopped another domain is back in S-mode as it was. |
| DomainMoves.MovesJustWhen | arch/riscv/runtime/domain_context.c:627-762 | A step takes a hart to another domain if and only if that is allowed: an enter, to a domain its own may enter, that it may run, that has a context to go on with or an entry it may execute, and neither being stopped; an exit, to a caller that waits, else to the lowest domain it may enter and has not run; a yield or a message, the same with their own conditions; a stop, to a caller that waits. |
| DomainMoves.MoveIsAllowed | arch/riscv/runtime/domain_context.c:627-871 | In every run, a hart that changes domain does so by its own step, and one that is allowed. |
| DomainMoves.EntersWithLeave | arch/riscv/runtime/domain_context.c:643-644 | In every run, an enter, or an exit that returns to nobody, takes a hart only where its domain may enter, and never to the root domain. |
| DomainMoves.EnterAnswers | arch/riscv/runtime/domain_context.c:637-654 | Each answer of enter() is given if and only if its cause is there and no cause of an earlier one. |
| DomainMoves.EnterTwice | arch/riscv/runtime/domain_context.c:648-650 | In every run without a stop, a target is refused as available already if and only if it waits for the hart's domain, some calls down. |
| DomainMoves.ExitRefused | arch/riscv/runtime/domain_context.c:730-755 | An exit out of a domain being stopped, with no caller that waits, changes nothing but the caller link of the context it would have gone on to. |
| DomainMoves.FirstRun | arch/riscv/runtime/domain_context.c:544-606 | In every run, a hart that comes to a domain it has no context in is out of reset, at the domain's entry, with its hart id and the domain's argument, if it boots the domain; any other is on its way to a stop. |
| DomainAway.ComesBack | arch/riscv/runtime/domain_context.c:460-620 | In every run, stops included: a hart that leaves a domain and comes back, with its context not dropped meanwhile, finds what it left, an interrupt if and only if one was sent to it there while it was away, and in its registers the answer to its message, or what it is handed if it waits in a call, or what was there. |
| DomainAway.AwayKeeps | arch/riscv/runtime/domain_context.c:786-798 | While a hart is away, its context stays as it is but for the interrupt, which is noted if and only if one is sent, or is dropped. |
| DomainAway.NoneNotedHolds | arch/riscv/runtime/domain_context.c:510-514 | No interrupt is noted for a hart in the domain it runs. |
| DomainAway.StepTravels | arch/riscv/runtime/domain_context.c:530-539 | Every step that takes a hart to another domain puts away what it is, and gives it what was put away there. |
| DomainHsm.StateChanges | arch/riscv/runtime/hsm.c:132-299 | In every run, the state kept of a hart changes along the steps of starting, stopping and suspending only; only START_PENDING is set by another hart, and only on one that is STOPPED. |
| DomainHsm.StepGoes | arch/riscv/runtime/hsm.c:68-299 | Where each step of a hart takes it, from wherever it is. |
| DomainHsm.UpThroughCheck | arch/riscv/runtime/domain_context.c:774-784 | In every run, a hart that is stopped, or asleep with nothing kept, and later in S-mode, has found its domain's flag down on the way, or was sent back to a caller by a stop. |
| DomainHsm.RetentiveKeeps | arch/riscv/runtime/hsm.c:294-298 | In every run, a hart that resumes without a start fell asleep in S-mode of the same domain with what it has now. |
| DomainHsm.StartIsAsked | arch/riscv/runtime/hsm.c:117-158 | In every run, a hart gets out of STOPPED only by a start that another hart was asked for: of a hart of its own domain, or of a domain it boots, which is not being stopped, has no parked hart and an entry it may execute. |
| DomainHsm.CallJustWhen | arch/riscv/runtime/hsm.c:181-299 | A hart may stop or suspend itself if and only if it is STARTED, note an interrupt for one that is away with a context, and stop a domain if no other stop is under way. |
| DomainHsm.GoesOn | arch/riscv/runtime/hsm.c:68-299 | A hart in the middle of something can go on, unless it is STOPPED, asleep, or waits for a start to be over. |
| DomainHsm.StartJustWhen | arch/riscv/runtime/domain_context.c:810-838 | Such a call is taken if and only if it may be asked for. |
| DomainUp.StartedJustWhen | arch/riscv/runtime/hsm.c:222-236 | In all states of a run every hart in S-mode is STARTED if and only if no hart that was not STARTED was sent back to a waiting caller by a stop. |
| DomainUp.SlipJustWhen | arch/riscv/runtime/domain_context.c:852-871 | A hart that leaves a domain being stopped is then in S-mode without being STARTED just when it was not STARTED and a caller waits. |
| DomainUp.SuspendedInSmode | arch/riscv/runtime/hsm.c:222-236 | A run in which that happens, by a suspend. |
| DomainReset.AliveJustWhen | arch/riscv/runtime/domain_context.c:810-838 | In every run: from a state in which no hart of a domain is up or has been let up, one is by a later state if and only if an enter, exit, return or start let one in by then. |
| DomainReset.StepEnlivens | arch/riscv/runtime/domain_context.c:489-924 | The same of each single step, for every domain. |
| DomainReset.StopResetsAlone | arch/riscv/runtime/domain_context.c:915-919 | Where domain_stop() resets the domain's events, every other valid hart of it is STOPPED, waits, and is not being started. |
| DomainReset.ResetMeetsHart | arch/riscv/runtime/domain_context.c:810-838 | A run in which a start is behind its check and still to reset the events while the domain's hart is in S-mode. |
| DomainCalls.CallersAreTheChain | arch/riscv/runtime/domain_context.c:588-665 | In every run without a stop, the caller links from a hart's own domain give exactly the makers of its unreturned enters, latest first, and its CALLING contexts are exactly these. |
| DomainCalls.CallsNest | arch/riscv/runtime/domain_context.c:627-762 | In every run without a stop, each step leaves a hart's unreturned calls as they are, adds one that keeps the hart as it is, or takes the latest off and resumes its maker as it was. |
| DomainCalls.ExitResumes | arch/riscv/runtime/domain_context.c:707-762 | An exit, loud or quiet, goes to the maker of the latest unreturned enter, which resumes with the registers, CSRs, timer deadline and MPXY memory of that enter, except the return values it is due, a software interrupt that came meanwhile, and vector registers too wide to save. |
| DomainCalls.CallsHold | arch/riscv/runtime/domain_context.c:460-620 | In every such run, contexts and slots are what the history of enters, returns and messages says. |
| DomainCalls.EnterCalls | arch/riscv/runtime/domain_context.c:627-665 | An enter pushes one call, with the hart saved as it was. |
| DomainCalls.LeaveReturns | arch/riscv/runtime/domain_context.c:707-762 | A return pops the last call and resumes it. |
| DomainCalls.MessagesAreAnswered | services/mpxy/mpxy_rpmi_fw.c:449-546 | Every message sent with the hart is read and completed on its own channel only, completed only if read, and answered once, before the next is sent and on the hart's return: with the target's two words if it completed two that fit the output area, else an error; an unanswered one has the hart away from its sender, and a sender that runs has a free slot. |
| DomainCalls.AnswerIsProper | services/mpxy/mpxy_rpmi_fw.c:449-482 | The answer a slot gives is the one its message is due. |
| DomainCalls.RefusedKeepsCalls | services/mpxy/mpxy_rpmi_fw.c:484-546 | A switch that is refused answers the message with busy, and no call is made. |
| DomainCalls.CompletingExits | services/mpxy/mpxy_rpmi_fw.c:509-514 | Completing a message takes the hart back to the caller that sent it, which resumes as it was. |
| DomainMail.SendJustWhen | services/mpxy/mpxy_rpmi_fw.c:397-411 | A message travels with the hart if and only if its target has a context that waits to be entered, or is to be booted here, and is not being stopped. |
| DomainMail.RetrieveJustWhen | services/mpxy/mpxy_rpmi_fw.c:141-153 | In every run without a stop, a message can be read on a channel if and only if the hart's latest unreturned call is one that brought a message, sent on that channel and not completed. |
| DomainMail.CompleteJustWhen | services/mpxy/mpxy_rpmi_fw.c:281-300 | It can be completed there if and only if it has also been read. |
| DomainMail.CompletionIsAnswered | services/mpxy/mpxy_rpmi_fw.c:449-514 | In every run without a stop, a message completed with two words takes the hart back to its sender with the hart's next step, and the sender gets these words if the second is within its output area, else an error. |
| DomainCode.Monitor.ContextEnter | arch/riscv/runtime/domain_context.c:627-665 | In place: the checks give the error the model gives, in that order, and on an error nothing has changed. |
| DomainCode.Monitor.FindLeave | arch/riscv/runtime/domain_context.c:714-751 | The search loop finds the target the model defines. |
| DomainCode.Monitor.ContextLeave | arch/riscv/runtime/domain_context.c:707-762 | In place: the model's leave; refused, it changes nothing but the caller link of the context it had found, if it had. |
| DomainCode.Monitor.StopSelf | arch/riscv/runtime/domain_context.c:852-871 | In place: back to a caller that waits, its call failed, or to a stop, as the model's step has it. |
| DomainCode.Monitor.StopRaise | arch/riscv/runtime/domain_context.c:881-893 | The loop over the harts drops exactly the contexts that wait in the domain, and their bits in the parked mask. |
| DomainCode.Monitor.StartForget | arch/riscv/runtime/domain_context.c:828-830 | The loop over the harts resets the domain's context state on each, and nothing else. |
| RfenceCount.RequestIsDone | arch/riscv/runtime/rfence.c:224-261 | In every run, when rfence_request() returns, each target of the call that began it, the caller included if it is one, has executed the fence that call asked for after it was made, and no queue and no hart holds an entry that points at the caller's count. |
| RfenceCount.CountHolds | arch/riscv/runtime/rfence.c:177-222 | In every reachable state a requester's count is the number of harts that hold its entry, queued or taken and not acknowledged; no hart holds two of one request, and each held entry is of a request under way. |
| RfenceCount.StepCounted | arch/riscv/runtime/rfence.c:177-261 | Every step keeps that. |
| RfenceCount.DoneWhenZero | arch/riscv/runtime/rfence.c:255-260 | A waiting requester with count zero is owed nothing, and all its targets have fenced. |
| RfenceCount.FencedWhen | arch/riscv/runtime/rfence.c:196-200 | A target counted as fenced has a step, after the request began, in which it executed it. |
| RfenceProgress.StepSignalled | drivers/ipi/ipi.c:56-98 | Every step keeps: a queue with entries has its RFENCE bit pending, a sender about to set it, or its owner draining; and a pending bit has its line raised, a sender about to raise it, or its owner about to swap. |
| RfenceProgress.QueueIsServed | arch/riscv/runtime/rfence.c:177-261 | In every endless run in which all harts keep running, a queue with entries is served, whatever is full and whoever waits. |
| RfenceProgress.EntryIsAcked | arch/riscv/runtime/rfence.c:177-202 | Each entry a hart holds is fenced and acknowledged, in its turn. |
| RfenceProgress.WaitEnds | arch/riscv/runtime/rfence.c:248-260 | A request that has queued all its entries gets its count to zero: all targets fence. |
| RfenceReturn.RequestReturns | arch/riscv/runtime/rfence.c:224-261 | In every endless run in which all harts keep running and requests are started only finitely often, every request returns, also one that full queues keep out, with all targets fenced and no entry of it left. |
| RfenceReturn.StepWorks | arch/riscv/runtime/rfence.c:177-246 | No step of a request or of its service adds work, an entry queued or acknowledged takes some away, and any other leaves every hart with as many entries. |
| RfenceRing.Ring.Enqueue | arch/riscv/runtime/rfence.c:205-222 | The eight-entry ring takes an entry at its end just when it is not full, and keeps the others in order. |
| RfenceRing.Ring.Take | arch/riscv/runtime/rfence.c:185-194 | The ring gives its oldest entry and keeps the rest, or says it is empty. |
| SseModel.InjectLeaves | arch/riscv/runtime/sse.c:284-338 | Injection enters the handler with its registers, interrupts off, in a frame that leads back to the interrupted one, and the event keeps the rest of it. |
| SseModel.CompleteRestores | arch/riscv/runtime/sse.c:365-426 | Completion gives back mepc, privilege, virtualisation, SIE, SPIE, SPP, SDT, sepc, hstatus, a6 and a7 exactly, from any frame of the handler that has the way back intact. |
| SseModel.TopIsTop | arch/riscv/runtime/sse.c:231-255 | The top event is found if there is one, and has the lowest priority value, and the lowest id of those. |
| SseLife.MakesPending | arch/riscv/runtime/sse.c:432-465 | An event that is raised is pending, its hart kicked, and nothing else changed; a global one that does not run goes to the preferred hart if that listens, else to the one that raises it, else to the lowest that listens; with none, to the preferred one if there is such a hart, else to the one that raises it in its own domain, else it stays. |
| SseLife.StepBecomes | arch/riscv/runtime/sse.c:174-723 | Of every step and every event: what it becomes, who did it and in which state, and that any other event stays as it is. |
| SseLife.CallJustWhen | arch/riscv/runtime/sse.c:467-613 | Each call about events is taken if and only if the caller may make it in the state the event is in. |
| SseLife.HandlerIsRegistered | arch/riscv/runtime/sse.c:284-338 | In every run, a handler that is entered is the one its event was registered with last, with its argument, and the event is registered since; and it was raised, and not injected since. |
| SseLife.RaisedBefore | arch/riscv/runtime/sse.c:467-528 | In every run, a pending event was raised while it was registered, or injected by S-mode, and is pending since. |
| SseLife.OneshotOnce | arch/riscv/runtime/sse.c:415-418 | In every run, a one-shot event that is injected twice was enabled in between. |
| SseLife.CompletedIsReady | arch/riscv/runtime/sse.c:415-418 | An event that completes is REGISTERED if it is one-shot, else ENABLED. |
| SseLife.UnwrittenStays | arch/riscv/runtime/sse.c:700-723 | A write changes the attributes it names and nothing else of an event. |
| SseLife.LastWriteStays | arch/riscv/runtime/sse.c:700-723 | Each of them reads as it was written last. |
| SseLife.MaskChanges | arch/riscv/runtime/sse.c:593-613 | A hart starts out masked in a domain, and only its own calls there change that. |
| SseLife.ReadyChanges | arch/riscv/runtime/sse.c:192-228 | The global events of a domain are ready from its first hart's start to the next reset. |
| SseNest.CompleteReturns | arch/riscv/runtime/sse.c:340-426 | In every run in which handlers leave the saved attributes and the double trap enable alone, an sse_complete() that finds the way back intact, whatever the handler did to it meanwhile, restores the whole frame that the hart had in the step that injected the event, with the nest of events under it as it was then, and that nest was untouched in between. |
| SseNest.LaterOutranks | arch/riscv/runtime/sse.c:340-358 | Whatever handlers do, of two events that run on a hart the one injected later strictly outranks the other. |
| SseNest.LatestEnds | arch/riscv/runtime/sse.c:365-378 | Whatever handlers do, sse_complete() ends the event injected last and no other, and leaves a legal frame. |
| SseNest.NestHolds | arch/riscv/runtime/sse.c:340-426 | In every reachable state the nest of injected events is in order and anything else that runs is outranked by all of it; and if handlers leave the saved attributes alone, each event keeps what its interrupted frame needs back. |
| SseNest.StepNested | arch/riscv/runtime/sse.c:192-723 | Every step keeps that: registration, raising, enabling, attribute writes, masking, domain changes and resets included. |
| SseNest.CompletesLast | arch/riscv/runtime/sse.c:365-378 | The event that completes is the last one injected. |
| SseNest.CompleteGivesBack | arch/riscv/runtime/sse.c:377-413 | Completing it with the way back intact puts the hart back in the frame it interrupted, and its event runs no more. |
| SseNest.WrittenIdle | arch/riscv/runtime/sse.c:662-723 | Attribute writes that pass the check change of a running event its interrupted state only. |
| SseKick.NoEventIsLost | arch/riscv/runtime/sse.c:210-602 | In every reachable state, for every hart not in the middle of a domain change: if an event of its domain is enabled, pending and directed to it, its kick flag is up. |
| SseKick.SwitchWindow | arch/riscv/runtime/sse.c:210-221 | In the middle of a domain change it need not be: a run that shows it. |
| SseKick.SwitchJustWhen | arch/riscv/runtime/sse.c:210-221 | After a change of domain no event is lost if and only if the flag was up before it or no event of the other domain was enabled, pending and directed to the hart. |
| SseKick.LostJustWhen | arch/riscv/runtime/sse.c:210-221 | In every reachable state an event is due without the flag if and only if the hart has made such a change and is not through with it. |
| SseKick.WindowCloses | arch/riscv/runtime/sse.c:219-220 | Whatever ends the change of domain leaves the flag up. |
| SseKick.ProcessKicked | arch/riscv/runtime/sse.c:340-358 | sse_process() lowers the flag only when nothing is deliverable. |
| SseKick.EventStepKicked | arch/riscv/runtime/sse.c:456-553 | Whatever makes an event deliverable kicks its hart in the same section. |
| SseKick.LookGoesOn | arch/riscv/runtime/sse.c:345-348 | With an event to deliver the fast path does not turn the hart away. |
| SseKick.LookTurnsBack | arch/riscv/runtime/sse.c:345-346 | With the flag down a hart does not take the lock, and nothing changes. |
| SseKick.ProcessDelivers | arch/riscv/runtime/sse.c:348-357 | An unmasked hart whose event outranks what runs has one injected that is at least as high. |
| SseCode.Monitor.TopEvent | arch/riscv/runtime/sse.c:239-255 | The loop finds the model's top event. |
| SseCode.Monitor.ProcessLocked | arch/riscv/runtime/sse.c:348-357 | In place: the model's section, with both searches. |
| SseCode.Monitor.CompleteTop | arch/riscv/runtime/sse.c:365-426 | In place: the model's completion, or nothing changes when no event runs. |
| SseCode.Monitor.SetPending | arch/riscv/runtime/sse.c:432-465 | In place: the event is pending on the hart the model chooses (the preferred one if it listens, else the caller, else the first that does), and that hart is kicked. |
| SseCode.Monitor.ResetEvents | arch/riscv/runtime/sse.c:192-208 | The loops reset the hart's own events, and the domain's the first time, and no other. |
| Doorbell.AlwaysAnswerable | drivers/rpmi/rpmi.c:71-92 | In every interleaving: the lock has at most one holder, a ring recorded while the lock is free has an agent about to try the lock, and a ring not recorded has had a drain begin after it. |
| Doorbell.DrainsDoNotOverlap | drivers/rpmi/rpmi.c:84-92 | No two agents drain, or hold the lock otherwise, at once. |
| Doorbell.DrainsForARing | drivers/rpmi/rpmi.c:84-92 | In every run, whoever takes the flag drains if and only if there was a ring since the last drain began, and leaves none unanswered. |
| Doorbell.OnlyClientsWait | drivers/rpmi/rpmi.c:71-92 | No agent waits but a client for the lock; an interrupt that finds the lock taken is over. |
| Doorbell.QuietIsAnswered | drivers/rpmi/rpmi.c:332-339 | When all calls have returned, every ring has had a drain that began after it. |
| Doorbell.RingIsAnswered | drivers/rpmi/rpmi.c:332-339 | If all calls keep going on, every ring is followed by a drain that begins after it, also with calls nested in others. |
| ReqfwdProtocol.EverySendEndsOnce | services/mpxy/reqfwd.c:95-198 | In every interleaving the story of each send is one of: timed out without an answer; read, answered with a response that fits, and returned with that response; read, answered too long, and returned with the error. A message whose send has returned is not in the queue and not being written to. |
| ReqfwdProtocol.QueueIsInOrder | services/mpxy/reqfwd.c:95-113 | The count is the length, messages are in the order of their sends, and only the first can have been retrieved. |
| ReqfwdProtocol.InvHolds | services/mpxy/reqfwd.c:95-198 | The invariant behind both holds in every reachable state. |
| ReqfwdProtocol.ExpireKeeps | services/mpxy/reqfwd.c:121-134 | A timeout takes its message out wherever it is and ends the send as timed out, or ends it with the answer that came first and leaves the queue alone. |
| ReqfwdProtocol.CompleteKeeps | services/mpxy/reqfwd.c:170-198 | A completion goes to the first message, which was retrieved since it was sent; it leaves the queue, and its story goes on with the response, or with none if that is too long. |
| ReqfwdProtocol.SentAsAsked | services/mpxy/reqfwd.c:95-113 | In every run, a send under way has the message length and the room for a response of the call that began it. |
| ReqfwdProtocol.ServedJustWhen | services/mpxy/reqfwd.c:147-198 | The first message can be read if and only if it has a byte at the offset, and completed if and only if it has been read. |
| ReqfwdProtocol.AnsweredFromTheStart | services/mpxy/reqfwd.c:147-198 | An answered message was read from its first byte if and only if one was since the last completion, and the one that was last has not timed out. |
| ReqfwdProtocol.AnsweredUnread | services/mpxy/reqfwd.c:147-198 | A run in which one was not. |
| ReqfwdQueue.Queue.Append | services/mpxy/reqfwd.c:109-113 | The list with its last link is the old one with the message at its end; the servers are told just when it was empty. |
| ReqfwdQueue.Queue.Unlink | services/mpxy/reqfwd.c:81-93 | The list is the old one without the message, in order, its last link and its count are right, and a message that is not there changes nothing. |
| ReqfwdQueue.Queue.Retrieve | services/mpxy/reqfwd.c:147-168 | The asked-for part of the first message, how much is left of it, and its state; both errors change nothing. |
| ReqfwdQueue.Queue.Complete | services/mpxy/reqfwd.c:170-198 | Only a retrieved first message is answered: it leaves the list, and has the response, or an error and no response if that is too long. |
| ReqfwdQueue.Message.Answer | services/mpxy/reqfwd.c:181-194 | The response is there, whole, just when it fits. |
| PmpAgree.CheckAgrees | arch/riscv/runtime/domain.c:67-98 | For any monitor regions that meet the condition, any domain region list and any range the entries reach, domain_range_ok() for R, RW or X says yes just when the programmed entries let S-mode do the range as one access. |
| PmpAgree.CheckAgreesJustWhen | arch/riscv/runtime/hart.c:320-332 | For any list of monitor regions, they agree on all ranges the entries reach if and only if what only one of them sees of a region is in another region that both see. |
| PmpAgree.AllAgreeJustWhen | arch/riscv/runtime/domain.c:67-98 | On all ranges below the top of the word they agree if and only if that holds and the entries reach as far as the word. |
| PmpAgree.PastIsDenied | arch/riscv/runtime/pmp.c:139-158 | A range past the reach of the entries is denied by them, whatever the regions. |
| PmpAgree.PastIsChecked | arch/riscv/runtime/domain.c:67-98 | The check allows such a range just when no monitor region is in the way and the first domain region it meets is the one of all addresses and grants it. |
| PmpAgree.ByteParts | arch/riscv/runtime/pmp.c:139-153 | Where a byte of a region with the wrong shape is in no such other, they part at that byte. |
| PmpAgree.EndUnseen | arch/riscv/runtime/pmp.c:148-152 | A region for which the condition fails, and where they part. |
| PmpAgree.MonitorIsClosed | arch/riscv/runtime/hart.c:320-332 | Whatever the domain's regions, an access to a byte of a monitor region that both see is refused by the check and by the entries. |
| PmpAgree.EntriesAllow | arch/riscv/runtime/pmp.c:139-158 | Whatever the monitor regions, the entries allow an access just when no monitor entry matches a byte of it and the first domain region it meets holds it all and grants it. |
| PmpAgree.TopIsRefused | arch/riscv/runtime/domain.c:76-81 | A range that ends with the word, or wraps, is refused whatever the entries say. |
| PmpAgree.EmptyIsOk | arch/riscv/runtime/domain.c:78-79 | An empty range is allowed. |
| PmpAgree.NeverWriteOnly | arch/riscv/runtime/hart.c:607-625 | No entry grants writing without reading. |
| PmpAgree.NapotMeans | arch/riscv/runtime/pmp.c:142-147 | The NAPOT register written for an aligned power of two matches exactly its bytes. |
| PmpAgree.TorMeans | arch/riscv/runtime/pmp.c:148-152 | The two addresses of a TOR pair are the region's bounds, except an end at the top of the address space, which becomes zero. |
| PmpAgree.AllMeans | arch/riscv/runtime/pmp.c:155-158 | The register of all ones matches all of memory, and as much again. |
| PmpAgree.RangeMeans | arch/riscv/runtime/pmp.c:139-153 | What pmp_range_set() writes is the rule for the region, as one entry or two. |
| PmpAgree.MonitorMeans | arch/riscv/runtime/hart.c:538-551 | The monitor's entries are the rules of its regions, in order, each without permissions. |
| PmpAgree.DomainMeans | arch/riscv/runtime/hart.c:607-625 | The domain's entries are the rules of its regions, one each and in order, with W dropped where R is missing. |
| PmpAgree.SeenAlike | arch/riscv/runtime/hart.c:320-332 | monitor_range_clear() sees a region just where its entries match, unless the region ends with the address space in the wrong shape: then exactly one of the two sees it. |
| PmpCode.Pmp.EntrySet | arch/riscv/runtime/pmp.c:110-118 | One entry changes, to what was asked for; an index past the end changes nothing. |
| PmpCode.Pmp.RangeSet | arch/riscv/runtime/pmp.c:139-153 | One entry or two change, to the encoding of the region, as far as there are entries, and the count of them is returned. |
| PmpCode.Pmp.MonitorCount | arch/riscv/runtime/hart.c:469-478 | The number of entries the monitor's regions take. |
| PmpCode.Pmp.HartInit | arch/riscv/runtime/hart.c:538-551 | The first entries are those of the monitor's regions; it gives up just when fewer than three are left for one. |
| PmpCode.Pmp.DomainSet | arch/riscv/runtime/hart.c:591-633 | All entries are then the monitor's, the domain's as far as they fit, and the rest off. |
| RegionTables.MemRegions.Add | arch/riscv/runtime/hart.c:54-87 | Every address of the region is in the table under its kind afterwards and no other address has changed what it is in, if and only if the region does not wrap, or has no neighbour there, or was covered already; it fails just for a shared region that wraps or reaches into the monitor, or a full table without a neighbour. |
| RegionTables.MemRegions.MisplacedMeans | arch/riscv/runtime/hart.c:62-66 | A shared region is refused as misplaced if and only if it wraps or has a byte of the monitor's image, and an empty one if it is inside of it. |
| RegionTables.WrappedIsLost | arch/riscv/runtime/hart.c:69-82 | A table and a region that wraps for which none of this holds. |
| RegionTables.DomainRegions.Add | arch/riscv/runtime/domain.c:100-112 | The list stays sorted by size, with the new region behind those no larger and before those larger; a full list does not change. |
| RegionTables.CheckRange | arch/riscv/runtime/domain.c:73-98 | The loops compute the check the proofs are about. |
| RegionTables.CheckClear | arch/riscv/runtime/hart.c:320-332 | So does the loop over the monitor's regions. |
| Dbtr.Triggers.Install | arch/riscv/runtime/dbtr.c:389-443 | On success each configuration is on its own trigger, which was free and supports its type and holds its tdata1, each chain on consecutive triggers in order and as far down as those before it leave room, and all other triggers are as they were; on any error all installed ones are, the free ones are off, and error and index name the first configuration that is not allowed, has no place, or is not taken by the hardware. No configuration installed matches in M-mode or is a debugger's, and no trigger does if none did before. |
| Dbtr.FirstFitOnce | arch/riscv/runtime/dbtr.c:412-426 | There is one such placement: any two agree as far as both go. |
| Dbtr.StuckIsStuck | arch/riscv/runtime/dbtr.c:418-421 | Where the placement gets stuck no such placement gets further. |
| Dbtr.FindRun | arch/riscv/runtime/dbtr.c:370-387 | The first run of free triggers that can take a chain; none is found just when there is none. |
| Dbtr.PlaceChain | arch/riscv/runtime/dbtr.c:412-426 | The next chain goes on the first run that is free and clear of those placed before it, or there is none. |
| Dbtr.Place | arch/riscv/runtime/dbtr.c:412-426 | All chains are placed so, or the first that cannot be is named. |
| Dbtr.CheckAll | arch/riscv/runtime/dbtr.c:402-411 | The first configuration that S-mode may not install, and why, if there is one: a type that is none of the five, M-mode, a debugger's trigger, or a chain that the last one leaves open. |
| Dbtr.CheckMeans | arch/riscv/runtime/dbtr.c:273-283 | Each answer of the validation is given if and only if its cause is there. |
| Dbtr.CheckedAreFit | arch/riscv/runtime/dbtr.c:273-283 | What passes it is of one of the five types, not M-mode's and not a debugger's, and the last does not chain. |
| Dbtr.Triggers.ProgramAll | arch/riscv/runtime/dbtr.c:428-439 | All are programmed just when the hardware takes each; otherwise the states are rolled back, and every trigger the call took is off again. |
| Dbtr.Triggers.Program | arch/riscv/runtime/dbtr.c:285-305 | The trigger holds what the hardware makes of the configuration, with its tdata1 as asked for, or is off. |
| Dbtr.Triggers.Apply | arch/riscv/runtime/dbtr.c:488-524 | The operation is done to every trigger of the set if all are installed, else to none; what a trigger then holds is what the hardware makes of the modes written. On hardware that adds neither, no trigger gets to match in M-mode or to be a debugger's. |
| Dbtr.DisableTakesModes | arch/riscv/runtime/dbtr.c:138-143 | Disabling takes away the modes that the trigger's type has, and nothing else. |
| Dbtr.EnableUndoesDisable | arch/riscv/runtime/dbtr.c:511-521 | A disabled trigger matches in no mode, and enabling it again gives back the installed configuration. |
| Dbtr.DisabledComesBack | arch/riscv/runtime/dbtr.c:504-521 | On hardware that holds both configurations, a disabled trigger matches in no mode, and enabled again is as installed. |
| Dbtr.RefusedJustWhen | arch/riscv/runtime/dbtr.c:285-305 | A configuration is not taken if and only if its tdata1 does not read back, or it has a tdata3 and the hardware has none. |
| Dbtr.HeldAsAsked | arch/riscv/runtime/dbtr.c:285-305 | What is accepted is held as asked for if and only if tdata2 and tdata3 are. |
| Dbtr.HeldOtherwise | arch/riscv/runtime/dbtr.c:285-305 | An accepted configuration that is not. |
| EventBuffer.Buffer.Sink | services/mpxy/mpxy_rpmi.c:185-207 | The events of a notification are buffered whole and in order, each just when it fits behind those kept before it, or counted as lost; the buffer always parses into its count of events, and received is returned plus buffered plus lost. |
| EventBuffer.Buffer.GetEvents | services/mpxy/mpxy_rpmi.c:209-242 | The oldest events that fit, whole and in order; the rest stay; the loss count modulo 2^32 is reported and starts over. |
| EventBuffer.Buffer.Put | services/mpxy/mpxy_rpmi.c:191-204 | An event is appended just when it fits, else lost. |
| EventBuffer.WholeEvents | drivers/rpmi/rpmi.c:276-291 | The longest beginning of a notification that is whole, aligned events. |
| EventBuffer.HeaderSays | include/rpmi.h:131-133 | The number of data bytes is the lower half of an event's header. |
| EventBuffer.FlatParses | services/mpxy/mpxy_rpmi.c:219-227 | Words that are whole events are so in one way only. |
| EventBuffer.CameAccounts | services/mpxy/mpxy_rpmi.c:195-202 | An arrival keeps the account of events, in the order they came. |
| EventBuffer.WentAccounts | services/mpxy/mpxy_rpmi.c:228-239 | So does a read. |
| EventBuffer.LossIsExact | services/mpxy/mpxy_rpmi.c:195-202 | The counter has the number of lost events if and only if that is below 2^32. |
| EventBuffer.LossWraps | services/mpxy/mpxy_rpmi.c:195-202 | A history after which it does not. |
| ShmemRing.RingIsFifo | drivers/rpmi/rpmi_shmem.c:63-142 | In every interleaving of one producer and one consumer, word by word: messages arrive in order with header and data intact, or are reported if they do not fit the buffer or are not whole words, and at most msg_slots - 1 are on the way. |
| ShmemRing.AlwaysQueued | drivers/rpmi/rpmi_shmem.c:63-142 | The slots between head and tail hold exactly the messages sent and not received, also while one is being written and one read. |
| ShmemRing.BusyMeansFull | drivers/rpmi/rpmi_shmem.c:74-79 | A producer is turned away just when the ring was full as it looked. |
| ShmemRing.NoDataMeansEmpty | drivers/rpmi/rpmi_shmem.c:111-116 | A consumer finds nothing just when nothing is there. |
| ShmemRing.HeaderFields | drivers/rpmi/rpmi_shmem.c:84-86 | Where each field of a header is in its two words. |
| ShmemRing.PackUnpack | drivers/rpmi/rpmi_shmem.c:84-127 | A header survives its two words. |
| ShmemAccess.Queue.Recv | drivers/rpmi/rpmi_shmem.c:99-142 | Whatever each read gives: the exact accesses, in order, the error each value leads to, the header, and the words in the caller's buffer, of which nothing else changes. |
| ShmemAccess.ReceivedWithin | drivers/rpmi/rpmi_shmem.c:118-141 | All of these stay in one slot of the queue and in the caller's buffer; nothing but the head is written, and that last and with a slot's index. |
| ShmemAccess.Queue.Send | drivers/rpmi/rpmi_shmem.c:63-97 | Whatever each read gives: the exact accesses, in order, and the error each value leads to. |
| ShmemAccess.SentWithin | drivers/rpmi/rpmi_shmem.c:82-93 | All of these stay in one slot; the head is not written, and the tail is, last and with a slot's index. |
| Misaligned.Hart.Emulate | arch/riscv/runtime/misaligned.c:187-260 | An access of the kind that trapped, with the floating-point unit on if it needs it, does to registers, memory and pc what it is defined to do; on a fault at a byte a load has changed nothing and a store only the bytes before; a vector form goes to the vector code if that takes it; anything else changes nothing. |
| Misaligned.EmulatesAll | arch/riscv/runtime/misaligned.c:187-260 | Of every load and store, by its encoding: it is done as the instruction is defined, or left to S-mode if it needs a floating-point unit that is not on. |
| Misaligned.EmulatesNoOther | arch/riscv/runtime/misaligned.c:31-109 | What is done is a load or store of that encoding, reserved forms aside. |
| Misaligned.VectorsGoOn | arch/riscv/runtime/misaligned.c:199-206 | An instruction is left to the vector code, with nothing changed, if and only if it has one of the vector forms and that code takes it. |
| Misaligned.PerformsOnce | arch/riscv/runtime/misaligned.c:222-259 | What an access is defined to do is one outcome and one state of the hart. |
| Misaligned.LoadedMeans | arch/riscv/runtime/misaligned.c:243-259 | A load changes the pc and one register, and the state of the floating-point unit if that is a floating-point one; x0 stays. |
| Misaligned.BoxedMeans | arch/riscv/runtime/misaligned.c:110-185 | A single has its bits in the low half, and ones above them if the register can hold a double. |
| Misaligned.FloatComesBack | arch/riscv/runtime/misaligned.c:222-250 | A floating-point register that is loaded and stored again gives what was in memory. |
| Misaligned.Hart.Load | arch/riscv/runtime/misaligned.c:234-259 | The register gets the little-endian value, extended, or boxed in a floating-point register, which makes that state dirty; x0 does not change. |
| Misaligned.Hart.Store | arch/riscv/runtime/misaligned.c:222-233 | The bytes of the register are stored, up to the one that faults, and nothing else changes. |
| Misaligned.DecodesAll | arch/riscv/runtime/misaligned.c:31-109 | Every base, C and Zcb integer access of two bytes and more and every floating-point access, with any operands, is decoded as what it is, and is no reserved form. |
| Misaligned.DecodesNoOther | arch/riscv/runtime/misaligned.c:31-109 | What is decoded as one, and is not reserved, is the encoding of one. |
| Misaligned.TakesJust | arch/riscv/runtime/misaligned.c:31-109 | What is taken is exactly the encodings of loads and stores and the two reserved forms, and nothing is both. |
| Misaligned.ReservedTaken | arch/riscv/runtime/misaligned.c:37-41 | Both reserved forms are taken: an instruction of each. |
| Misaligned.LoadsStored | arch/riscv/runtime/misaligned.c:227-242 | Storing a value byte by byte and loading it again gives its low bytes. |
| Misaligned.ShiftedExtends | arch/riscv/runtime/misaligned.c:251-255 | Shifting up and down again is sign extension. |
| Division.UDivMod | lib/builtins/divdi3.c:21-41 | n = q * d + r with r < d; by zero all ones, with the dividend as the remainder. |
| Division.NoOverflow | lib/builtins/divdi3.c:31-32 | The partial remainder has room for one more bit, however large the divisor. |
| Division.DivMod | lib/builtins/divdi3.c:56-72 | The signed forms truncate toward zero, with the dividend's sign on the remainder, modulo 2^64; by zero the remainder is the dividend, and the quotient minus one or one. |
| Division.WrapsOnce | lib/builtins/divdi3.c:56-63 | The quotient is exact except for the smallest number divided by minus one. |
| Division.DividesOnce | lib/builtins/divdi3.c:21-41 | Quotient and remainder are determined by what division means. |

## Left out

- DomainCalls.ExitResumes: vector registers wider than the space a context has for them are not kept by the code either; the hypervisor CSRs are one opaque field.
- DomainCalls.CallsHold: runs in which a domain is stopped are left to the placement and stop theorems and to `DomainAway.ComesBack`, since a stop breaks calls on purpose.
- DomainMail.RetrieveJustWhen: which part of the message a read gives, and the error of an offset behind its end.
- DomainHsm.StepGoes: where a started or resumed hart begins, and the error codes of a start that is not made.
- DomainStop.StopIsDone: a section under the domain lock is one step, although the scan and hart start read the masks without that lock, and could see a hart between two of them; the theorem is about the masks after the section.
- RfenceReturn.RequestReturns: with requests started without end it is not claimed, since a hart that is sent fences without end serves them without end, and a request kept out by full queues can be overtaken for ever.
- RfenceCount.RequestIsDone: which pages a fence covers, and the refusal of guest fences on harts without the hypervisor extension, are not modelled; a fence is one event.
- SseNest.CompleteReturns: handlers that write the INTERRUPTED attributes or change the double trap enable are excluded, since they ask for another frame; so is one that completes with another way back.
- SseNest.NestHolds: a domain reset while another hart runs in the domain is excluded; when there can be one is said in `DomainReset`.
- SseKick.SwitchWindow: one run, with one hart and two domains.
- Doorbell.RingIsAnswered: an agent is a call, so nested calls are agents whose steps are not interleaved; the storm of interrupts that never lets a call go on is excluded by fairness.
- PmpAgree.CheckAgrees: Smepmp, its window and its rules, a grain above four bytes, and RV32.
- PmpCode.Pmp.HartInit: the panic is a result.
- RegionTables.MemRegions.Add: a table that holds a region that wraps already.
- Dbtr.Triggers.Install: the shared memory is a sequence of configurations; a trigger's hit bits are not part of one. Updating an installed trigger is not modelled.
- Dbtr.Place: a placement of earlier chains that would have left room for a later one is not searched for, as in the code.
- EventBuffer.Buffer.GetEvents: the poll before it, and the words to the channel's owner.
- ShmemRing.RingIsFifo: the memory fences, since accesses are sequentially consistent here.
- Misaligned.Hart.Emulate: what the vector code does with an access it takes, and the fault of the instruction fetch; the address of the access is the one hardware reports.
- ReqfwdProtocol.EverySendEndsOnce: the notification of servers.
- Hart power backends, panic and halt, and loss of state in suspend.
- Device drivers, device tree parsing, the PMU, firmware features, and the thin SBI call dispatchers: register accesses and per-branch argument checks.
- The MPXY and SSE calls that only read attributes, and the sources of events (RAS, PMU).
