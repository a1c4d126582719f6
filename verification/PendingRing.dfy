/**
  The circular buffer of consumeGeneration (consumer.go:374-500): an array of Prefetch+1 slots with a head and a
  count, updated in place, refines the queue that the consumer protocol carries.
 */
module PendingRing {
  import opened Basics
  import opened ConsumerProtocol
  import opened ConsumerSafety

  class Ring {
    const slots: array<Option<Envelope>>
    var head: nat
    var count: nat

    /** Occupied slots hold envelopes and every other slot is cleared. */
    ghost predicate Valid()
      reads this, slots
    {
      && head < slots.Length && count <= slots.Length
      && (forall k | 0 <= k < count :: slots[Slot(head, k, slots.Length)].Some?)
      && (forall k | count <= k < slots.Length :: slots[Slot(head, k, slots.Length)].None?)
    }

    ghost function Contents(): (q: seq<Envelope>)
      requires Valid()
      reads this, slots
      ensures |q| == count
    {
      seq(count, k requires 0 <= k < count reads this, slots requires Valid() => slots[Slot(head, k, slots.Length)].value)
    }

    constructor (prefetch: nat)
      ensures Valid() && fresh(slots) && slots.Length == prefetch + 1
      ensures Contents() == []
    {
      slots := new Option<Envelope>[prefetch + 1](_ => None);
      head, count := 0, 0;
    }

    /** Appends at the tail; every pending delivery stays where it was. */
    method Enqueue(e: Envelope)
      requires Valid() && count < slots.Length
      modifies this`count, slots
      ensures Valid()
      ensures Contents() == old(Contents()) + [e]
    {
      SlotIsRemainder(head, count, slots.Length);
      slots[(head + count) % slots.Length] := Some(e);
      count := count + 1;
    }

    /** Removes the oldest delivery and clears its slot. */
    method TakeHead() returns (e: Envelope)
      requires Valid() && count > 0
      modifies this, slots
      ensures Valid()
      ensures old(Contents()) == [e] + Contents()
    {
      assert slots[Slot(head, 0, slots.Length)].Some?;
      e := slots[head].value;
      SlotIsRemainder(head, 1, slots.Length);
      slots[head] := None;
      head := (head + 1) % slots.Length;
      count := count - 1;
      assert forall k | 0 <= k < slots.Length - 1 ::
        Slot(head, k, slots.Length) == Slot(old(head), k + 1, slots.Length);
    }

    /** Clears every slot. */
    method Discard()
      requires Valid()
      modifies this, slots
      ensures Valid() && Contents() == []
      ensures forall p | 0 <= p < slots.Length :: slots[p].None?
    {
      for p := 0 to slots.Length
        invariant count == old(count) && head == old(head)
        invariant forall i | 0 <= i < p :: slots[i].None?
      {
        slots[p] := None;
      }
      head, count := 0, 0;
    }
  }

  /** Circular offset without division: the slot of the k-th pending delivery. */
  function Slot(head: nat, k: nat, cap: nat): (p: nat)
    requires head < cap && k <= cap
    ensures p < cap
  {
    if head + k < cap then head + k else head + k - cap
  }

  /** The slot the source computes with a remainder. */
  lemma SlotIsRemainder(head: nat, k: nat, cap: nat)
    requires head < cap && k <= cap
    ensures (head + k) % cap == Slot(head, k, cap)
  {
    Wrap(head + k, cap);
  }

  lemma Wrap(x: nat, cap: nat)
    requires 0 < cap && x < 2 * cap
    ensures x % cap == if x < cap then x else x - cap
  {
    if x >= cap {
      assert x % cap == (x - cap) % cap;
    }
  }

  /** The protocol's consuming loop with this buffer as its ring. */
  ghost predicate Holds(ring: Ring, s: State)
    reads ring, ring.slots
  {
    && s.loop.Consuming? && ring.slots.Length == Capacity(s)
    && ring.Valid() && ring.Contents() == s.loop.run.ring
  }

  /**
    The buffer operation of each loop step, for every reachable state: a free slot is there when a delivery is
    accepted, and the buffer goes on holding exactly the queue of the protocol.
   */
  method Follow(ring: Ring, s: State, l: LoopStep)
    requires Reachable(s) && Holds(ring, s)
    requires LoopNext(s, l).Some? && LoopNext(s, l).value.loop.Consuming?
    modifies ring, ring.slots
    ensures Holds(ring, LoopNext(s, l).value)
    ensures l.AdmitOne? ==> LoopNext(s, l).value.work.jobs == s.work.jobs + [old(ring.Contents())[0]]
    ensures !(l.AdmitOne? || l.Enqueue? || l.EnterGate?) ==> ring.Contents() == old(ring.Contents())
  {
    ReachableLoopOk(s);
    match l {
      case EnterGate =>
        if s.flags.admissionClosed {
          ring.Discard();
        }
      case AdmitOne =>
        var e := ring.TakeHead();
      case Enqueue =>
        ring.Enqueue(Envelope(s.loop.run.gen, s.loop.at.incoming.tag));
      case _ =>
        RingStays(s, l);
    }
  }

  lemma RingStays(s: State, l: LoopStep)
    requires s.loop.Consuming? && LoopNext(s, l).Some? && LoopNext(s, l).value.loop.Consuming?
    requires !(l.AdmitOne? || l.Enqueue? || l.EnterGate?)
    ensures LoopNext(s, l).value.loop.run.ring == s.loop.run.ring
    ensures Capacity(LoopNext(s, l).value) == Capacity(s)
  {
    match s.loop.at {
      case Selecting(_) =>
        match l {
          case DrainExit => case Receive => case StreamEnd => case Wake => case CancelNotice =>
          case FailureExit => case RecoveryDone => case LifetimeExit => case _ =>
        }
      case Top => case Gated(_) => case Received(_) => case Accepting(_) => case Rejecting(_) =>
    }
  }
}
