# Dank Grinder command engine, modelled in Dafny

This project models three parts of the Dank Grinder bot:

- The command scheduler (`cmd/dankgrinder/scheduler.go`). It has two FIFO queues, a normal one and a priority one. Each queue is a list owned by a coordinator goroutine. A single dispatch loop serves the priority queue first. It sends priority commands without an abort channel and normal commands with one. A command with a positive interval is rescheduled through a timer goroutine.
- Command construction (`instance/commands.go`). This covers the sell and share message formats, the list of periodic commands built from the configuration (`newCmds`), and the chain builder (`newCmdChain`, `newAutoSellChain`). The chain builder links commands into a ring.
- The configuration validator (`config/validate.go`) over the records of `config/config.go`.

Files:

- `wrappers.dfy` holds `Option`.
- `config.dfy` holds module `Config`: the records, the validators, and the declarative predicates they are proved equivalent to.
- `commands.dfy` holds module `Instance`. Commands live in an arena, an array of `Cmd` records, and `next` is an index into it. `CondFunc` becomes a `Cond` value, called with an explicit balance and the current value of the loop variable a closure may read.
- `scheduler.dfy` holds module `Scheduler`:
  - the class `Queue`, the coordinator's list plus ghost histories that make FIFO an object invariant;
  - the class `Scheduler`, with both queues and the armed reschedule timers;
  - a pure state machine (`State`, `Dispatch`, `FireReschedule`, `Apply`, `Run`). The class methods are proved to implement it, and the ordering lemmas are proved about it.

Three behaviours of the code that the model keeps as written:

- A rescheduled command is always sent on `s.schedule`, the normal queue's enqueue (scheduler.go:84-86, 129), even when it was taken from the priority queue. The comment at scheduler.go:123-125 says only that it goes to the back of the queue.
- `validateCompat` accepts an await-response timeout of 0 (validate.go:108), although its error message asks for a value greater than 0.
- Chained commands other than the last keep the sell cooldown as their interval (commands.go:71).

Inputs that are implicit in the source are parameters here:

- the order in which Go iterates over the cluster map, `order` in `Config.Validate`;
- the balance a command condition reads, and the value of the custom-command loop variable when it is read;
- the base string of the share message, `shareBaseCmdValue`, which is not defined in the source;
- which armed timer fires next, `k`.

## Model

| member | source | states |
|---|---|---|
| `Config.IsValidID` | config/validate.go:114-116 | the id matches `^[0-9]+$`: it is non-empty and every character is in '0'..'9' |
| `Config.Contains` | config/validate.go:76-79 | `strings.Contains`: true iff the substring occurs at some position |
| `Config.ValidateCompat` | config/validate.go:98-112 | passes iff the pray, hunt and share cooldowns are > 0 and the timeout is >= 0; a non-positive pray cooldown is reported first |
| `Config.ValidateShifts` | config/validate.go:89-96 | passes iff every shift state is "active" or "dormant"; on failure it names the first shift that is neither |
| `Config.CheckCustomCommand` | config/validate.go:73-84 | passes iff the value is non-empty, contains neither "owo hunt" nor "owoh", and the amount is >= 0; each rejection carries its own error, checked in that order |
| `Config.ValidateCustomCommands` | config/validate.go:72-86 | passes iff every custom command is acceptable; on failure the error is that of the first rejected command |
| `Config.ValidateFeatures` | config/validate.go:57-87 | passes iff auto-sell (when enabled) has interval >= 0 and an item, auto-share (when enabled) has amount > 0, and every custom command is acceptable; the auto-sell checks run only when it is enabled |
| `Config.ValidateInstance` | config/validate.go:35-55 | rejects an empty token, an empty channel id, a non-numeric channel id and an empty shift list, in that order; otherwise passes iff the features and shifts pass |
| `Config.ValidateInstances` | config/validate.go:23-27 | passes iff every instance of a cluster passes; a failure carries the cluster key, the index of the first failing instance and that instance's own error |
| `Config.ValidateClusters` | config/validate.go:19-28 | passes iff the master and every instance of each visited cluster pass |
| `Config.Validate` | config/validate.go:15-33 | fails with "no clusters" when there are none; otherwise passes iff every cluster passes and `validateCompat` passes |
| `Config.ValidateOrderIrrelevant` | config/validate.go:19 | whether `Validate` passes does not depend on the map iteration order |
| `Instance.SellCmdValue` | instance/commands.go:22-24 | the message is "owo sell", a space, the item, a space and the amount, and nothing else |
| `Instance.ShareCmdValue` | instance/commands.go:26-28 | the message is the share base, a space, the amount, and then " <@", the id and ">" at the end, and nothing else |
| `Instance.ToUint` | instance/commands.go:57 | `uint(x)` keeps a non-negative amount and maps a negative 64-bit one to x + 2^64 |
| `Instance.SellRoundTrip` | instance/commands.go:22-24 | a sell message is "owo sell", then the item, then the amount; both are read back, item first |
| `Instance.ShareRoundTrip` | instance/commands.go:26-28 | a share message carries the amount and then the recipient id inside "<@…>"; both are read back |
| `Instance.CustomCondHolds` | instance/commands.go:58-60 | a custom command's own condition holds iff its pause threshold is 0 or the balance reaches it, whatever the loop variable holds |
| `Instance.NewCmds` | instance/commands.go:32-64 | the result is pray (if enabled), then hunt (if enabled), then one command per custom command in order, copying value, interval in seconds and amount; "owo pray" with the pray cooldown and await-resume is present iff pray is enabled, and likewise for hunt; no command is linked |
| `Instance.NewCmdsAsWritten` | instance/commands.go:32-64 | as written, with one loop variable overwritten by every iteration: the commands are those of `NewCmds` but each custom command's closure reads the loop variable, which ends holding the last custom command; so every custom command's condition holds exactly when the last custom command's own condition holds |
| `Instance.CapturedMatchesOwnIff` | instance/commands.go:50-60 | as written, a custom command's condition agrees with its own threshold at every balance iff its threshold equals the last custom command's |
| `Instance.CapturedCondCounterexample` | instance/commands.go:50-60 | as written, every closure reads the last custom command: with thresholds 100 and 0, the first command passes at balance 50 although its own threshold forbids it |
| `Instance.ChainIsRing` | instance/commands.go:80-91 | after chaining, following `next` from the entry reaches the i-th command after i steps, and each command returns to itself after n steps |
| `Instance.NewCmdChain` | instance/commands.go:80-91 | links cmds[i-1] to cmds[i], links the last command to cmds[0] with the chain interval, leaves every other interval and all values unchanged, and returns index 0; a single command becomes a self-loop |
| `Instance.NewAutoSellChain` | instance/commands.go:66-78 | one "owo sell <item> max" command per item, in item order, with the sell cooldown, chained with the auto-sell interval in seconds |
| `Scheduler.QueueStep` | cmd/dankgrinder/scheduler.go:63-74 | an enqueue appends at the tail and hands off nothing; a hand-off happens iff the list is non-empty, gives the head and leaves the rest; on an empty list nothing changes |
| `Scheduler.QueueConservation` | cmd/dankgrinder/scheduler.go:62-76 | over any interleaving of enqueues and hand-offs, the commands handed off followed by those still queued equal the initial contents followed by the enqueued commands |
| `Scheduler.FifoOrder` | cmd/dankgrinder/scheduler.go:62-76 | the commands handed off are a prefix of the commands queued, in the same order |
| `Scheduler.Queue.constructor` | cmd/dankgrinder/scheduler.go:56-61 | a new queue is empty and has accepted nothing |
| `Scheduler.Queue.Enqueue` | cmd/dankgrinder/scheduler.go:65-66 | appends to the tail and keeps the FIFO invariant |
| `Scheduler.Queue.Dequeue` | cmd/dankgrinder/scheduler.go:64-73 | hands off only when non-empty; returns the head and removes exactly it; keeps the FIFO invariant |
| `Scheduler.Dispatch` | cmd/dankgrinder/scheduler.go:100-119 | blocks iff both queues are empty; a non-empty priority queue gives its head, sent without abort; otherwise the normal head is sent with abort; exactly one command leaves the queues; a timer is armed iff the interval is positive |
| `Scheduler.FireReschedule` | cmd/dankgrinder/scheduler.go:126-130 | a fired timer puts its command, unchanged, at the tail of the normal queue and removes that one timer |
| `Scheduler.Apply` | cmd/dankgrinder/scheduler.go:100-119 | every event performs at most one send, and a send happens iff a loop iteration finds a queued command |
| `Scheduler.PriorityDrain` | cmd/dankgrinder/scheduler.go:102-108 | n loop iterations send the first n priority commands in queue order, all without abort, and leave the normal queue alone |
| `Scheduler.OneShotStep` | cmd/dankgrinder/scheduler.go:100-130 | no single event other than scheduling a command with interval <= 0 adds a copy of it to the normal queue or the armed timers |
| `Scheduler.OneShotNeverRequeued` | cmd/dankgrinder/scheduler.go:105-107 | for a command with interval <= 0 that nobody schedules, the number of its copies in the normal queue plus the armed timers never grows, over any events and whichever queue it is dispatched from: dispatching it arms no timer |
| `Scheduler.PriorityRescheduleGoesToNormal` | cmd/dankgrinder/scheduler.go:84-86 | a recurring priority command, once its timer fires, is back at the tail of the normal queue |
| `Scheduler.Scheduler.constructor` | cmd/dankgrinder/scheduler.go:80-88 | a new scheduler has two distinct empty queues and no armed timers |
| `Scheduler.Scheduler.Schedule` | cmd/dankgrinder/scheduler.go:85 | a send on `s.schedule` appends to the normal queue only |
| `Scheduler.Scheduler.Prioritize` | cmd/dankgrinder/scheduler.go:84 | a send on `s.priority` appends to the priority queue only |
| `Scheduler.Scheduler.Reschedule` | cmd/dankgrinder/scheduler.go:126-128 | arms one timer for the command and changes nothing else |
| `Scheduler.Scheduler.DispatchStep` | cmd/dankgrinder/scheduler.go:100-119 | one loop iteration on the objects does what `Dispatch` specifies: same send, same new queues and timers |
| `Scheduler.Scheduler.FireReschedule` | cmd/dankgrinder/scheduler.go:127-129 | a firing timer on the objects does what `FireReschedule` specifies |

## Findings

| source | as written | input that shows it | evidently intended | confidence | as-written member | corrected member |
|---|---|---|---|---|---|---|
| instance/commands.go:50-60 | each `CondFunc` closure reads the range variable `cmd`; before Go 1.22 that is one variable shared by all iterations, so after the loop every closure sees the last custom command's `PauseBelowBalance` | custom commands with thresholds 100 and 0 at balance 50: the first command is let through (`Instance.CapturedCondCounterexample`) | each custom command pauses on its own threshold | medium; not executed, and it depends on the Go version (before 1.22) | `Instance.NewCmdsAsWritten` | `Instance.CustomCondHolds` |

## Left out

- Goroutines, unbuffered channels and `select` are not modelled (scheduler.go:62-77, 100-119). Each coordinator iteration, loop iteration, enqueue and timer firing is one atomic step.
- Scheduler.Dispatch: the model reads the priority queue once per iteration. In the source, a priority command enqueued between the check at scheduler.go:102 and the `select` at line 111 races with the normal queue. `select` may then take the normal command first. The model does not show that outcome.
- The preemption watcher's 1 ms polling and the abort handshake are not modelled (scheduler.go:90-98). Only its condition is kept, as `AbortRaised`: abort is raised while the priority queue is non-empty. The watcher reads the priority list's length from another goroutine without synchronisation, which is also not modelled.
- Sleeps, wall-clock time, `delay()` and `typingTime()` are not modelled. A reschedule is an armed timer with no clock, and any armed timer may fire next.
- `sendMessage` and `auth.SendMessage` are not modelled, nor is logging. A send is the event `Send(content, abortable)`. The `response` field is carried but not used, because `sendMessage` does not read it.
- `config.Load` (config.go:132-206) is not modelled. It is file I/O, YAML decoding and an override merge that depends on the YAML library.
- The incomplete statement `if in.Features.AutoSell` at commands.go:48 has no body and is not modelled.
- Instance.NewCmds: `time.Duration(n) * time.Second` is modelled as n * 10^9 without 64-bit wrap-around. It overflows only for intervals beyond about 292 years.
- Instance.NewCmds: each custom command's condition follows its own pause threshold (`CustomCmd`, the corrected reading). The as-written reading, where every closure reads the one shared loop variable, is `NewCmdsAsWritten`; see "## Findings".
- Instance.NewAutoSellChain: the same unwrapped multiplication applies to the sell cooldown and the chain interval.
- Instance.NewCmdChain: the model uses an arena of distinct records. It does not cover a slice that holds the same pointer twice, where the source's writes would overlap. An empty slice makes the source panic, so it is excluded by a precondition.
- Which error `Validate` returns when several clusters fail depends on Go's random map order, given here as `order`. Only pass or fail is proved independent of it.
- `regexp.MustCompile` is not modelled. The pattern `^[0-9]+$` is stated directly as a character predicate.
