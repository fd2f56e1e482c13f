/**
 Senders, closers and the processor of one UDP session as a transition system.

 `Send` holds the queue mutex from its check of `closed` to its channel operation.  `Close` sets
 `closed` and cancels the context under the mutex; nobody can see one without the other, so they
 are one field.  Receives from the channel need no mutex, so the drain after a close and
 `Process` compete for what is left.
 */
module PacketSteps {
  import opened Options
  import opened PacketState

  type Tid = nat

  /** A caller of `Send` or `Close`. */
  datatype Pc =
    | SendWait(packet: Packet)
    | SendLocked(queued: Queued)
    | SendDrop(packet: Packet)
    | CloseWait
    | Draining
    | DrainDrop(packet: Packet)

  /** The goroutine that dials and then runs `Process`. */
  datatype Proc =
    | Dialing
    | Established(maxDelay: int)
    | Looping(maxDelay: int)
    | Holding(maxDelay: int, queued: Queued)
    | Mapping(maxDelay: int, queued: Queued)
    | Rechecking(maxDelay: int, queued: Queued, addr: Addr)
    | Writing(maxDelay: int, queued: Queued, addr: Addr, checkedAt: int)
    | Releasing(maxDelay: int, packet: Packet)
    | Stopped

  /** One call of `WriteTo`, with the limit in force and the time of the last check before it. */
  datatype Write = Write(queued: Queued, addr: Addr, maxDelay: int, checkedAt: int)

  /**
   `drops` counts the releases of every packet ever given to `Send`; `admitted` are the packets
   that entered the channel and `taken` those that left it, in order; `drained` says that a drain
   found the channel empty.
   */
  datatype State = State(sender: Sender, mutex: Option<Tid>, threads: map<Tid, Pc>, proc: Proc,
                         drops: map<nat, nat>, admitted: seq<Queued>, taken: seq<Queued>, writes: seq<Write>,
                         drained: bool)

  const INITIAL := State(NEW_SENDER, None, map[], Dialing, map[], [], [], [], false)

  predicate At(s: State, t: Tid, pc: Pc) {
    t in s.threads && s.threads[t] == pc
  }

  function Goto(s: State, t: Tid, pc: Pc): State {
    s.(threads := s.threads[t := pc])
  }

  function Exit(s: State, t: Tid): State {
    s.(threads := s.threads - {t})
  }

  function Drop(s: State, p: Packet): State {
    s.(drops := s.drops[p.id := (if p.id in s.drops then s.drops[p.id] else 0) + 1])
  }

  /** The channel without its first packet. */
  function TakeHead(s: State): State
    requires s.sender.queue != []
  {
    s.(sender := s.sender.(queue := s.sender.queue[1..]), taken := s.taken + [s.sender.queue[0]])
  }

  datatype CallerStep =
    | SendCalled(packet: Packet)
    | SendEntered(now: int, diagnostics: bool)
    | SendPushed
    | SendDropped
    | CloseCalled
    | CloseEntered
    | Drained
    | DrainDropped

  datatype ProcessStep =
    | DialFailed(t: Tid)
    | Dialed(key: string, origin: Option<Addr>, target: Option<Addr>, policy: nat)
    | PolicyStored
    | ProcessStopped
    | ProcessTook
    | FirstChecked(now: int)
    | Mapped(resolved: Option<Addr>)
    | SecondChecked(now: int)
    | Wrote
    | Released

  datatype Step = Caller(t: Tid, caller: CallerStep) | Process(process: ProcessStep)

  predicate Next(s: State, step: Step, s': State) {
    match step
    case Caller(t, caller) => NextCaller(s, t, caller, s')
    case Process(process) => NextProcess(s, process, s')
  }

  predicate NextCaller(s: State, t: Tid, step: CallerStep, s': State) {
    match step
    case SendCalled(p) => NextSendCalled(s, t, p, s')
    case SendEntered(now, diagnostics) => NextSendEntered(s, t, now, diagnostics, s')
    case SendPushed => NextSendPushed(s, t, s')
    case SendDropped => NextSendDropped(s, t, s')
    case CloseCalled => t !in s.threads && s' == Goto(s, t, CloseWait)
    case CloseEntered => NextCloseEntered(s, t, s')
    case Drained => NextDrained(s, t, s')
    case DrainDropped => NextDrainDropped(s, t, s')
  }

  predicate NextProcess(s: State, step: ProcessStep, s': State) {
    match step
    case DialFailed(t) => t !in s.threads && s.proc == Dialing && s' == Goto(s.(proc := Stopped), t, CloseWait)
    case Dialed(key, origin, target, policy) => NextDialed(s, key, origin, target, policy, s')
    case PolicyStored => NextPolicyStored(s, s')
    case ProcessStopped => s.proc.Looping? && s.sender.closed && s' == s.(proc := Stopped)
    case ProcessTook => NextProcessTook(s, s')
    case FirstChecked(now) => NextFirstChecked(s, now, s')
    case Mapped(resolved) => NextMapped(s, resolved, s')
    case SecondChecked(now) => NextSecondChecked(s, now, s')
    case Wrote => NextWrote(s, s')
    case Released => s.proc.Releasing? && s' == Drop(s, s.proc.packet).(proc := Looping(s.proc.maxDelay))
  }

  predicate NextSendCalled(s: State, t: Tid, p: Packet, s': State) {
    && t !in s.threads && p.id !in s.drops
    && s' == Goto(s, t, SendWait(p)).(drops := s.drops[p.id := 0])
  }

  predicate NextSendEntered(s: State, t: Tid, now: int, diagnostics: bool, s': State) {
    && t in s.threads && s.threads[t].SendWait? && s.mutex.None?
    && var p := s.threads[t].packet;
    s' == if s.sender.closed then Goto(s, t, SendDrop(p))
          else Goto(s, t, SendLocked(Stamp(s.sender, p, now, diagnostics))).(mutex := Some(t))
  }

  predicate NextSendPushed(s: State, t: Tid, s': State) {
    && t in s.threads && s.threads[t].SendLocked?
    && var q := s.threads[t].queued;
    s' == if |s.sender.queue| < CAPACITY
          then Exit(s, t).(mutex := None, admitted := s.admitted + [q],
                               sender := s.sender.(queue := s.sender.queue + [q]))
          else Goto(s, t, SendDrop(q.packet)).(mutex := None)
  }

  predicate NextSendDropped(s: State, t: Tid, s': State) {
    && t in s.threads && s.threads[t].SendDrop?
    && s' == Exit(Drop(s, s.threads[t].packet), t)
  }

  predicate NextCloseEntered(s: State, t: Tid, s': State) {
    && At(s, t, CloseWait) && s.mutex.None?
    && s' == if s.sender.closed then Exit(s, t)
             else Goto(s, t, Draining).(sender := s.sender.(closed := true))
  }

  predicate NextDrained(s: State, t: Tid, s': State) {
    && At(s, t, Draining)
    && s' == if s.sender.queue == [] then Exit(s, t).(drained := true)
             else Goto(TakeHead(s), t, DrainDrop(s.sender.queue[0].packet))
  }

  predicate NextDrainDropped(s: State, t: Tid, s': State) {
    && t in s.threads && s.threads[t].DrainDrop?
    && s' == Goto(Drop(s, s.threads[t].packet), t, Draining)
  }

  /** The dial enters the first mapping before the packet loop runs. */
  predicate NextDialed(s: State, key: string, origin: Option<Addr>, target: Option<Addr>, policy: nat, s': State) {
    && s.proc == Dialing
    && s' == s.(proc := Established(policy), sender := AddMapping(s.sender, key, origin, target))
  }

  predicate NextPolicyStored(s: State, s': State) {
    && s.proc.Established?
    && s' == s.(proc := Looping(s.proc.maxDelay), sender := s.sender.(maxQueueDelay := s.proc.maxDelay))
  }

  /** A closed context does not keep the receive from being chosen. */
  predicate NextProcessTook(s: State, s': State) {
    && s.proc.Looping? && s.sender.queue != []
    && s' == TakeHead(s).(proc := Holding(s.proc.maxDelay, s.sender.queue[0]))
  }

  predicate NextFirstChecked(s: State, now: int, s': State) {
    && s.proc.Holding?
    && var q, d := s.proc.queued, s.proc.maxDelay;
    s' == s.(proc := if s.sender.closed || Expired(q, d, now) then Releasing(d, q.packet) else Mapping(d, q))
  }

  predicate NextMapped(s: State, resolved: Option<Addr>, s': State) {
    && s.proc.Mapping?
    && var q, d := s.proc.queued, s.proc.maxDelay;
    var p := q.packet;
    s' == if p.key in s.sender.originToTarget then s.(proc := Rechecking(d, q, s.sender.originToTarget[p.key]))
          else if resolved.None? then s.(proc := Releasing(d, p))
          else s.(proc := Rechecking(d, q, resolved.value), sender := AddMapping(s.sender, p.key, p.origin, resolved))
  }

  predicate NextSecondChecked(s: State, now: int, s': State) {
    && s.proc.Rechecking?
    && var q, d := s.proc.queued, s.proc.maxDelay;
    s' == s.(proc := if s.sender.closed || Expired(q, d, now) then Releasing(d, q.packet)
                     else Writing(d, q, s.proc.addr, now))
  }

  predicate NextWrote(s: State, s': State) {
    && s.proc.Writing?
    && s' == s.(proc := Releasing(s.proc.maxDelay, s.proc.queued.packet),
                writes := s.writes + [Write(s.proc.queued, s.proc.addr, s.proc.maxDelay, s.proc.checkedAt)])
  }
}
