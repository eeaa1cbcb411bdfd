/** What the ring of `CommunicationObj` is for: a bounded queue with one element taken out for a callback. */
module FrameQueue {
  import opened Wrappers

  datatype Outcome = Stored | StoredByEviction | Refused

  datatype Queue<T> = Queue(blocks: nat, waiting: seq<T>, inFlight: Option<T>)
  {
    /** A ring of `blocks` blocks keeps one block free, and a second one while a callback reads its block. */
    function Capacity(): int {
      if inFlight.Some? then blocks - 2 else blocks - 1
    }

    ghost predicate Valid() {
      blocks >= 2 && |waiting| <= Capacity()
    }

    function PushOutcome(): Outcome {
      if |waiting| < Capacity() then Stored
      else if inFlight.Some? then Refused
      else StoredByEviction
    }

    function Push(x: T): (q: Queue<T>)
      ensures Valid() ==> q.Valid()
      ensures q.blocks == blocks && q.inFlight == inFlight
    {
      match PushOutcome()
      case Stored => this.(waiting := waiting + [x])
      case StoredByEviction => this.(waiting := (if waiting == [] then [] else waiting[1..]) + [x])
      case Refused => this
    }

    function Take(): (q: Queue<T>)
      requires waiting != []
      ensures q.inFlight.Some? && [q.inFlight.value] + q.waiting == waiting && q.blocks == blocks
      ensures Valid() && inFlight.None? ==> q.Valid()
    {
      Queue(blocks, waiting[1..], Some(waiting[0]))
    }

    function Release(): (q: Queue<T>)
      ensures Valid() ==> q.Valid()
    {
      this.(inFlight := None)
    }
  }
}
