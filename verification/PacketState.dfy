/** The fields of the UDP packet sender and the critical sections that change them. */
module PacketState {
  import opened Options

  /** A valid IP address; an invalid one is an absent `Option`. */
  type Addr = nat

  /** Capacity of the sender's channel. */
  const CAPACITY := 128

  /** A UDP packet; `key` is the text of its destination and `origin` the destination address, if it has one. */
  datatype Packet = Packet(id: nat, key: string, origin: Option<Addr>)

  /** A packet with the time of its admission, absent when no clock was read. */
  datatype Queued = Queued(packet: Packet, queuedAt: Option<int>)

  datatype Sender = Sender(queue: seq<Queued>, closed: bool, maxQueueDelay: int,
                           originToTarget: map<string, Addr>, targetToOrigin: map<Option<Addr>, Addr>)

  /** -1 stands for an outbound that is not established yet. */
  const NEW_SENDER := Sender([], false, -1, map[], map[])

  /** Whether a packet has waited at least the allowed time. */
  predicate Expired(q: Queued, maxDelay: int, now: int) {
    maxDelay > 0 && q.queuedAt.Some? && now - q.queuedAt.value >= maxDelay
  }

  /** The clock is read unless the outbound is known not to limit delays and nobody measures. */
  function Stamp(s: Sender, p: Packet, now: int, diagnostics: bool): Queued {
    Queued(p, if s.maxQueueDelay != 0 || diagnostics then Some(now) else None)
  }

  /** An entry, once valid, is never overwritten; an invalid target is recorded as no entry. */
  function AddMapping(s: Sender, key: string, origin: Option<Addr>, target: Option<Addr>): Sender {
    s.(originToTarget := if key in s.originToTarget || target.None? then s.originToTarget
                         else s.originToTarget[key := target.value],
       targetToOrigin := if target in s.targetToOrigin || origin.None? then s.targetToOrigin
                         else s.targetToOrigin[target := origin.value])
  }

  function RestoreReadFrom(s: Sender, addr: Addr): Addr {
    if Some(addr) in s.targetToOrigin then s.targetToOrigin[Some(addr)] else addr
  }

  predicate Extends(m: map<string, Addr>, m': map<string, Addr>) {
    forall k :: k in m ==> k in m' && m'[k] == m[k]
  }

  predicate ExtendsBack(m: map<Option<Addr>, Addr>, m': map<Option<Addr>, Addr>) {
    forall k :: k in m ==> k in m' && m'[k] == m[k]
  }

  /** A first mapping can be undone: replies from the target are restored to the origin. */
  lemma MappingRoundTrip(s: Sender, key: string, origin: Addr, target: Addr)
    requires Some(target) !in s.targetToOrigin
    ensures RestoreReadFrom(AddMapping(s, key, Some(origin), Some(target)), target) == origin
  {
  }
}
