/**
 * The command scheduler of cmd/dankgrinder/scheduler.go with its goroutines and
 * channels taken out. A queue is the list its coordinator goroutine owns; the
 * scheduler owns a priority queue, a normal queue and the reschedule timers it
 * has armed and that have not fired yet. One iteration of the dispatch loop,
 * one enqueue and one timer firing are each a single step.
 */
module Scheduler {
  import opened Wrappers

  /** The `command` record. `interval` is a time.Duration in nanoseconds;
      a command is rescheduled only when it is positive. */
  datatype Command = Command(content: string, response: bool, interval: int)

  /** What sendMessage is handed: the content, and whether the abort channel
      went with it (non-nil abort). */
  datatype Send = Send(content: string, abortable: bool)

  // ---------------------------------------------------------------------------
  // The queue coordinator of startNewQueue
  // ---------------------------------------------------------------------------

  /** What the coordinator does in one iteration: accept an enqueued command,
      or hand the head to a waiting receiver. */
  datatype QueueEvent = Push(cmd: Command) | Pop

  /** One coordinator iteration on the list `queued`: the new list and the
      command handed off, if any. An empty list offers nothing, so Pop then
      leaves it as it is. */
  function QueueStep(queued: seq<Command>, e: QueueEvent): (r: (seq<Command>, Option<Command>))
    ensures e.Push? ==> r.0 == queued + [e.cmd] && r.1.None?
    ensures e.Pop? ==> (r.1.Some? <==> |queued| > 0)
    ensures e.Pop? && r.1.Some? ==> [r.1.value] + r.0 == queued
    ensures e.Pop? && r.1.None? ==> r.0 == queued
  {
    match e
    case Push(cmd) => (queued + [cmd], None)
    case Pop => if |queued| == 0 then (queued, None) else (queued[1..], Some(queued[0]))
  }

  /** The coordinator run over a sequence of events: the final list and every
      command handed off, in hand-off order. */
  function RunQueue(queued: seq<Command>, events: seq<QueueEvent>): (seq<Command>, seq<Command>)
    decreases |events|
  {
    if |events| == 0 then (queued, [])
    else
      var (next, out) := QueueStep(queued, events[0]);
      var (final, handed) := RunQueue(next, events[1..]);
      (final, (if out.Some? then [out.value] else []) + handed)
  }

  /** The commands enqueued by a sequence of events, in order. */
  function Pushed(events: seq<QueueEvent>): seq<Command>
    decreases |events|
  {
    if |events| == 0 then []
    else (if events[0].Push? then [events[0].cmd] else []) + Pushed(events[1..])
  }

  /** Nothing is lost or reordered: what was handed off followed by what is
      still queued is what was queued at first followed by what was enqueued. */
  lemma {:induction false} QueueConservation(queued: seq<Command>, events: seq<QueueEvent>)
    ensures RunQueue(queued, events).1 + RunQueue(queued, events).0 == queued + Pushed(events)
    decreases |events|
  {
    if |events| > 0 {
      var (next, out) := QueueStep(queued, events[0]);
      QueueConservation(next, events[1..]);
      var first := if out.Some? then [out.value] else [];
      var pushed := if events[0].Push? then [events[0].cmd] else [];
      assert first + next == queued + pushed;
      calc {
        RunQueue(queued, events).1 + RunQueue(queued, events).0;
        (first + RunQueue(next, events[1..]).1) + RunQueue(next, events[1..]).0;
        first + (RunQueue(next, events[1..]).1 + RunQueue(next, events[1..]).0);
        first + (next + Pushed(events[1..]));
        (first + next) + Pushed(events[1..]);
        (queued + pushed) + Pushed(events[1..]);
        queued + (pushed + Pushed(events[1..]));
      }
    }
  }

  /** FIFO: however enqueues and hand-offs interleave, the commands handed off
      are a prefix of the commands queued, in the same order. */
  lemma FifoOrder(queued: seq<Command>, events: seq<QueueEvent>)
    ensures RunQueue(queued, events).1 <= queued + Pushed(events)
  {
    QueueConservation(queued, events);
  }

  /** A queue: the list owned by its coordinator goroutine. The ghost fields
      record every command ever accepted and every command ever handed off. */
  class Queue {
    var queued: seq<Command>
    ghost var accepted: seq<Command>
    ghost var handedOff: seq<Command>

    /** What has been handed off, followed by what is queued, is everything
        accepted: the queue is first in, first out. */
    ghost predicate Valid()
      reads this
    {
      handedOff + queued == accepted
    }

    constructor ()
      ensures Valid()
      ensures queued == [] && accepted == [] && handedOff == []
    {
      queued := [];
      accepted := [];
      handedOff := [];
    }

    /** The enqueue case: PushBack. */
    method Enqueue(cmd: Command)
      requires Valid()
      modifies this
      ensures Valid()
      ensures (queued, None) == QueueStep(old(queued), Push(cmd))
      ensures accepted == old(accepted) + [cmd] && handedOff == old(handedOff)
    {
      queued := queued + [cmd];
      accepted := accepted + [cmd];
    }

    /** The hand-off case: offered only while the list is non-empty; hands the
        front over and removes exactly it. None when nothing can be handed off
        (the receiver would block). */
    method Dequeue() returns (cmd: Option<Command>)
      requires Valid()
      modifies this
      ensures Valid()
      ensures (queued, cmd) == QueueStep(old(queued), Pop)
      ensures accepted == old(accepted)
      ensures handedOff == old(handedOff) + (if cmd.Some? then [cmd.value] else [])
    {
      if |queued| == 0 {
        cmd := None;
        return;
      }
      cmd := Some(queued[0]);
      assert handedOff + [queued[0]] + queued[1..] == handedOff + queued;
      handedOff := handedOff + [queued[0]];
      queued := queued[1..];
    }
  }

  // ---------------------------------------------------------------------------
  // The scheduler as a state machine
  // ---------------------------------------------------------------------------

  /** The queue a dispatched command was taken from. */
  datatype Origin = FromPriority | FromNormal

  /** The scheduler's state: both queues and the armed reschedule timers. */
  datatype State = State(priority: seq<Command>, normal: seq<Command>, pending: seq<Command>)

  /** The preemption watcher's condition: it raises abort while the priority
      queue holds a command. */
  predicate AbortRaised(s: State) {
    |s.priority| > 0
  }

  /** The dispatch loop's choice: the priority queue's head if there is one,
      otherwise the normal queue's head; nothing when both are empty. */
  function Select(s: State): Option<(Command, Origin)> {
    if |s.priority| > 0 then Some((s.priority[0], FromPriority))
    else if |s.normal| > 0 then Some((s.normal[0], FromNormal))
    else None
  }

  /** reschedule: arms one timer for a command with a positive interval. */
  function Rearm(pending: seq<Command>, cmd: Command): seq<Command> {
    if cmd.interval > 0 then pending + [cmd] else pending
  }

  /** One iteration of the dispatch loop: the send it performs and the new
      state, or None when both queues are empty and the loop blocks. */
  function Dispatch(s: State): (r: Option<(Send, State)>)
    ensures r.None? <==> s.priority == [] && s.normal == []
    ensures r.Some? ==> |r.value.1.priority| + |r.value.1.normal| + 1 == |s.priority| + |s.normal|
    ensures s.priority != [] ==>
              r == Some((Send(s.priority[0].content, false),
                         State(s.priority[1..], s.normal, Rearm(s.pending, s.priority[0]))))
    ensures s.priority == [] && s.normal != [] ==>
              r == Some((Send(s.normal[0].content, true), State([], s.normal[1..], Rearm(s.pending, s.normal[0]))))
    ensures r.Some? ==> (r.value.0.abortable <==> !AbortRaised(s))
    ensures r.Some? ==> && s.pending <= r.value.1.pending
                        && |r.value.1.pending| == |s.pending| + (if Select(s).value.0.interval > 0 then 1 else 0)
  {
    match Select(s)
    case None => None
    case Some((cmd, origin)) =>
      var taken := if origin == FromPriority then s.(priority := s.priority[1..]) else s.(normal := s.normal[1..]);
      Some((Send(cmd.content, origin == FromNormal), taken.(pending := Rearm(s.pending, cmd))))
  }

  /** A reschedule timer fires: the command leaves the armed timers and is sent
      on s.schedule, the normal queue's enqueue, whichever queue it came from. */
  function FireReschedule(s: State, k: nat): (r: State)
    requires k < |s.pending|
    ensures r.priority == s.priority
    ensures r.normal == s.normal + [s.pending[k]]
    ensures multiset(r.pending) + multiset{s.pending[k]} == multiset(s.pending)
  {
    assert s.pending == s.pending[..k] + [s.pending[k]] + s.pending[k + 1..];
    State(s.priority, s.normal + [s.pending[k]], s.pending[..k] + s.pending[k + 1..])
  }

  /** What can happen to a scheduler: a command is scheduled (normal queue) or
      prioritised, the dispatch loop runs one iteration, or the k-th armed
      timer fires. */
  datatype Event = Schedule(cmd: Command) | Prioritize(cmd: Command) | Loop | TimerFires(k: nat)

  /** One event: the new state and the sends it performs. An event that cannot
      happen (a loop iteration with nothing queued, a timer that is not armed)
      leaves the state as it is. */
  function Apply(s: State, e: Event): (r: (State, seq<Send>))
    ensures |r.1| <= 1
    ensures |r.1| == 1 <==> e.Loop? && (s.priority != [] || s.normal != [])
  {
    match e
    case Schedule(cmd) => (s.(normal := s.normal + [cmd]), [])
    case Prioritize(cmd) => (s.(priority := s.priority + [cmd]), [])
    case Loop =>
      (match Dispatch(s)
       case None => (s, [])
       case Some((send, next)) => (next, [send]))
    case TimerFires(k) => if k < |s.pending| then (FireReschedule(s, k), []) else (s, [])
  }

  /** A sequence of events: the final state and every send, in order. */
  function Run(s: State, events: seq<Event>): (State, seq<Send>)
    decreases |events|
  {
    if |events| == 0 then (s, [])
    else
      var (next, sends) := Apply(s, events[0]);
      var (final, more) := Run(next, events[1..]);
      (final, sends + more)
  }

  function Loops(n: nat): seq<Event> {
    seq(n, _ => Loop)
  }

  /** The sends of priority commands: content in queue order, never with the
      abort channel. */
  function PrioritySends(cmds: seq<Command>): seq<Send> {
    seq(|cmds|, i requires 0 <= i < |cmds| => Send(cmds[i].content, false))
  }

  /** Priority commands are dispatched first, in the order they were queued
      and without abort, and the normal queue waits meanwhile: n loop
      iterations send exactly the first n priority commands. */
  lemma {:induction false} PriorityDrain(s: State, n: nat)
    requires n <= |s.priority|
    ensures Run(s, Loops(n)).1 == PrioritySends(s.priority[..n])
    ensures Run(s, Loops(n)).0.priority == s.priority[n..]
    ensures Run(s, Loops(n)).0.normal == s.normal
    decreases n
  {
    if n > 0 {
      var (next, sends) := Apply(s, Loop);
      assert next.priority == s.priority[1..] && next.normal == s.normal;
      assert sends == [Send(s.priority[0].content, false)];
      assert Loops(n)[1..] == Loops(n - 1);
      PriorityDrain(next, n - 1);
      assert s.priority[1..][n - 1..] == s.priority[n..];
      assert PrioritySends(s.priority[..n]) == sends + PrioritySends(next.priority[..n - 1]);
    }
  }

  /** How many copies of `c` wait in the normal queue or on armed timers. */
  function Copies(s: State, c: Command): nat {
    multiset(s.normal)[c] + multiset(s.pending)[c]
  }

  /** No single event other than scheduling `c` adds a copy of a one-shot
      command `c` to the normal queue or the armed timers. */
  lemma OneShotStep(s: State, e: Event, c: Command)
    requires c.interval <= 0
    requires e != Schedule(c)
    ensures Copies(Apply(s, e).0, c) <= Copies(s, c)
  {
    var next := Apply(s, e).0;
    match e {
      case Schedule(d) =>
        assert multiset(next.normal) == multiset(s.normal) + multiset{d};
      case Prioritize(_) =>
      case Loop =>
        if s.priority == [] && s.normal != [] {
          assert s.normal == [s.normal[0]] + s.normal[1..];
          assert multiset(s.normal) == multiset{s.normal[0]} + multiset(next.normal);
        }
      case TimerFires(k) =>
        if k < |s.pending| {
          assert multiset(next.normal) == multiset(s.normal) + multiset{s.pending[k]};
        }
    }
  }

  /** A one-shot command (interval not positive) that nobody schedules never
      gains a copy in the normal queue or among the armed timers, whichever
      queue it is dispatched from: dispatching it never re-enqueues it. */
  lemma {:induction false} OneShotNeverRequeued(s: State, events: seq<Event>, c: Command)
    requires c.interval <= 0
    requires Schedule(c) !in events
    ensures Copies(Run(s, events).0, c) <= Copies(s, c)
    decreases |events|
  {
    if |events| > 0 {
      var next := Apply(s, events[0]).0;
      OneShotStep(s, events[0], c);
      assert forall e :: e in events[1..] ==> e in events;
      OneShotNeverRequeued(next, events[1..], c);
    }
  }

  /** A recurring command taken from the priority queue comes back, once its
      timer fires, at the tail of the normal queue and unchanged. */
  lemma PriorityRescheduleGoesToNormal(s: State)
    requires |s.priority| > 0 && s.priority[0].interval > 0
    ensures var armed := Dispatch(s).value.1;
            && |armed.pending| > 0
            && FireReschedule(armed, |armed.pending| - 1) == State(s.priority[1..], s.normal + [s.priority[0]], s.pending)
  {
    var armed := Dispatch(s).value.1;
    assert armed.pending == s.pending + [s.priority[0]];
    assert armed.pending[..|s.pending|] == s.pending;
  }

  // ---------------------------------------------------------------------------
  // The scheduler object of startNewScheduler
  // ---------------------------------------------------------------------------

  class Scheduler {
    const priorityQueue: Queue
    const queue: Queue
    /** The reschedule goroutines that are sleeping and have not sent yet. */
    var pending: seq<Command>

    ghost predicate Valid()
      reads this, priorityQueue, queue
    {
      priorityQueue != queue && priorityQueue.Valid() && queue.Valid()
    }

    ghost function Abstract(): State
      reads this, priorityQueue, queue
    {
      State(priorityQueue.queued, queue.queued, pending)
    }

    constructor ()
      ensures Valid() && fresh(priorityQueue) && fresh(queue)
      ensures Abstract() == State([], [], [])
    {
      priorityQueue := new Queue();
      queue := new Queue();
      pending := [];
    }

    /** A send on s.schedule: the command joins the normal queue's tail. */
    method Schedule(cmd: Command)
      requires Valid()
      modifies queue
      ensures Valid()
      ensures Abstract() == Apply(old(Abstract()), Event.Schedule(cmd)).0
      ensures queue.queued == old(queue.queued) + [cmd] && priorityQueue.queued == old(priorityQueue.queued)
    {
      queue.Enqueue(cmd);
    }

    /** A send on s.priority: the command joins the priority queue's tail. */
    method Prioritize(cmd: Command)
      requires Valid()
      modifies priorityQueue
      ensures Valid()
      ensures Abstract() == Apply(old(Abstract()), Event.Prioritize(cmd)).0
      ensures priorityQueue.queued == old(priorityQueue.queued) + [cmd] && queue.queued == old(queue.queued)
    {
      priorityQueue.Enqueue(cmd);
    }

    /** reschedule: arms the timer of a command just sent. */
    method Reschedule(cmd: Command)
      requires Valid()
      modifies this
      ensures Valid()
      ensures Abstract() == old(Abstract()).(pending := old(pending) + [cmd])
    {
      pending := pending + [cmd];
    }

    /** One iteration of the dispatch loop. The priority queue is served first
        and its command is sent without abort; otherwise the normal queue's
        head is sent with abort. A command with a positive interval is
        rescheduled. None: both queues were empty and the loop blocks. */
    method DispatchStep() returns (sent: Option<Send>)
      requires Valid()
      modifies this, priorityQueue, queue
      ensures Valid()
      ensures Apply(old(Abstract()), Loop) == (Abstract(), if sent.Some? then [sent.value] else [])
    {
      var cmd: Command;
      if |priorityQueue.queued| > 0 {
        var c := priorityQueue.Dequeue();
        cmd := c.value;
        sent := Some(Send(cmd.content, false));
      } else if |queue.queued| > 0 {
        var c := queue.Dequeue();
        cmd := c.value;
        sent := Some(Send(cmd.content, true));
      } else {
        sent := None;
        return;
      }
      if cmd.interval > 0 {
        Reschedule(cmd);
      }
    }

    /** The k-th armed timer fires: its command is sent on s.schedule. */
    method FireReschedule(k: nat)
      requires Valid() && k < |pending|
      modifies this, queue
      ensures Valid()
      ensures Abstract() == Apply(old(Abstract()), TimerFires(k)).0
    {
      var cmd := pending[k];
      pending := pending[..k] + pending[k + 1..];
      queue.Enqueue(cmd);
    }
  }
}
