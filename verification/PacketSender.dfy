/** The UDP packet sender as an object: one method per critical section. */
module PacketSender {
  import opened Options
  import opened PacketState

  class Sender {
    var queue: seq<Queued>
    var closed: bool
    var maxQueueDelay: int
    var originToTarget: map<string, Addr>
    var targetToOrigin: map<Option<Addr>, Addr>

    function View(): PacketState.Sender
      reads this
    {
      PacketState.Sender(queue, closed, maxQueueDelay, originToTarget, targetToOrigin)
    }

    constructor ()
      ensures View() == NEW_SENDER
    {
      queue, closed, maxQueueDelay := [], false, -1;
      originToTarget, targetToOrigin := map[], map[];
    }

    /** Overwrites an entry only if it holds no valid address. */
    method AddMapping(key: string, origin: Option<Addr>, target: Option<Addr>)
      modifies `originToTarget, `targetToOrigin
      ensures View() == PacketState.AddMapping(old(View()), key, origin, target)
      ensures Extends(old(originToTarget), originToTarget) && ExtendsBack(old(targetToOrigin), targetToOrigin)
    {
      if key !in originToTarget && target.Some? {
        originToTarget := originToTarget[key := target.value];
      }
      if target !in targetToOrigin && origin.Some? {
        targetToOrigin := targetToOrigin[target := origin.value];
      }
    }

    method RestoreReadFrom(addr: Addr) returns (restored: Addr)
      ensures restored == PacketState.RestoreReadFrom(View(), addr)
    {
      if Some(addr) in targetToOrigin {
        return targetToOrigin[Some(addr)];
      }
      return addr;
    }

    /** The admission of `Send`: refused once closed or when the channel is full, and it never blocks. */
    method Admit(p: Packet, now: int, diagnostics: bool) returns (admitted: bool)
      modifies `queue
      ensures admitted == (!closed && |old(queue)| < CAPACITY)
      ensures queue == if admitted then old(queue) + [Stamp(old(View()), p, now, diagnostics)] else old(queue)
    {
      if closed {
        return false;
      }
      var queued := Queued(p, None);
      if maxQueueDelay != 0 || diagnostics {
        queued := Queued(p, Some(now));
      }
      if |queue| < CAPACITY {
        queue := queue + [queued];
        return true;
      }
      return false;
    }

    /** One receive from the channel, for `Process` or for the drain after a close. */
    method Take() returns (taken: Option<Queued>)
      modifies `queue
      ensures taken.None? <==> old(queue) == []
      ensures old(queue) == (if taken.Some? then [taken.value] else []) + queue
    {
      if queue == [] {
        return None;
      }
      taken := Some(queue[0]);
      queue := queue[1..];
    }

    /**
     One packet of `Process`: `closed1`, `now1` and `closed2`, `now2` are what its two checks read,
     and `resolved` is what the resolution gives if it is needed.  Returns the address written to.
     */
    method ProcessPacket(q: Queued, maxDelay: int, closed1: bool, now1: int, resolved: Option<Addr>, closed2: bool,
                         now2: int)
      returns (written: Option<Addr>)
      modifies `originToTarget, `targetToOrigin
      ensures written.Some? <==>
        && !closed1 && !Expired(q, maxDelay, now1) && !closed2 && !Expired(q, maxDelay, now2)
        && (q.packet.key in old(originToTarget) || resolved.Some?)
      ensures View() ==
        if !closed1 && !Expired(q, maxDelay, now1) && q.packet.key !in old(originToTarget) && resolved.Some?
        then PacketState.AddMapping(old(View()), q.packet.key, q.packet.origin, resolved) else old(View())
      ensures written.Some? ==> q.packet.key in originToTarget && originToTarget[q.packet.key] == written.value
    {
      if closed1 || Expired(q, maxDelay, now1) {
        return None;
      }
      var addr;
      if q.packet.key in originToTarget {
        addr := originToTarget[q.packet.key];
      } else {
        if resolved.None? {
          return None;
        }
        AddMapping(q.packet.key, q.packet.origin, resolved);
        addr := resolved.value;
      }
      if closed2 || Expired(q, maxDelay, now2) {
        return None;
      }
      return Some(addr);
    }

    /** Returns whether this call is the one that has to drain. */
    method BeginClose() returns (first: bool)
      modifies `closed
      ensures first == !old(closed) && closed
    {
      first := !closed;
      closed := true;
    }

    /** The drain of `Close`: every packet still queued is handed out once, in order. */
    method DropAll() returns (dropped: seq<Queued>)
      requires closed
      modifies `queue
      ensures dropped == old(queue) && queue == []
    {
      dropped := [];
      while queue != []
        invariant dropped + queue == old(queue)
        decreases |queue|
      {
        var taken := Take();
        dropped := dropped + [taken.value];
      }
    }
  }
}
