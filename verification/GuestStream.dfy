/** A guest stream over a gateway call: frames queued for it, and its one reopening when the gateway's owner changes. */
module GuestStream {

  const QUEUE_SIZE := 64

  type Frame = string

  /** What happens to a stream, in any order: a caller sends, the call pulls its next frame, the gateway answers, the
      gateway reports another owner, or the call ends. */
  datatype Event = Send(frame: Frame) | Pull | Response | OwnershipChanged | Fails

  /** The frames of every call but their opening ones, in order. */
  function Delivered(calls: seq<seq<Frame>>): seq<Frame> {
    if calls == [] then []
    else
      var last := |calls| - 1;
      Delivered(calls[..last]) + if calls[last] == [] then [] else calls[last][1..]
  }

  /** What callers send in the first `k` events. */
  function Sends(events: seq<Event>, k: nat): seq<Frame>
    requires k <= |events|
  {
    if k == 0 then [] else Sends(events, k - 1) + if events[k - 1].Send? then [events[k - 1].frame] else []
  }

  class Stream {
    const initial: Frame
    var outgoing: seq<Frame>
    var attempt: nat
    var begun: bool        // the current call has pulled its opening frame
    var received: bool      // the current call has been answered
    var closed: bool
    ghost var accepted: seq<Frame>
    ghost var calls: seq<seq<Frame>>

    /** Only the opening frame is pulled before an answer, so what the callers sent is what the last call has pulled
        since, and the queue. */
    ghost predicate Valid()
      reads this
    {
      && |outgoing| <= QUEUE_SIZE && attempt < 2 && |calls| == attempt + 1
      && (attempt == 1 ==> calls[0] == [] || calls[0] == [initial])
      && (begun <==> calls[attempt] != [])
      && (begun ==> calls[attempt][0] == initial)
      && (!received ==> |calls[attempt]| <= 1)
      && accepted == (if begun then calls[attempt][1..] else []) + outgoing
    }

    constructor (initial: Frame)
      ensures Valid() && this.initial == initial && accepted == [] && calls == [[]] && !closed
    {
      this.initial := initial;
      outgoing, attempt, begun, received, closed := [], 0, false, false, false;
      accepted, calls := [], [[]];
    }

    /** A full queue closes the stream; a closed stream takes nothing. */
    method Send(frame: Frame) returns (sent: bool)
      requires Valid()
      modifies this
      ensures Valid() && sent == (!old(closed) && |old(outgoing)| < QUEUE_SIZE)
      ensures accepted == if sent then old(accepted) + [frame] else old(accepted)
      ensures closed == !sent && calls == old(calls)
    {
      sent := !closed && |outgoing| < QUEUE_SIZE;
      if sent {
        outgoing := outgoing + [frame];
        accepted := accepted + [frame];
      } else {
        closed := true;
      }
    }

    /** The call's next frame: the opening one at once, a queued one only after an answer. */
    method Pull() returns (pulled: bool)
      requires Valid()
      modifies this
      ensures Valid() && accepted == old(accepted) && closed == old(closed)
      ensures attempt == old(attempt)
      ensures pulled == (!old(closed) && (!old(begun) || (old(received) && old(outgoing) != [])))
      ensures |old(calls)| == attempt + 1
      ensures calls == if !pulled then old(calls)
                       else if !old(begun) then old(calls)[attempt := [initial]]
                       else old(calls)[attempt := old(calls)[attempt] + [old(outgoing)[0]]]
      ensures old(outgoing) == (if pulled && old(begun) then [old(outgoing)[0]] else []) + outgoing
    {
      pulled := false;
      if closed {
        return;
      }
      if !begun {
        begun, pulled := true, true;
        calls := calls[attempt := [initial]];
      } else if received && outgoing != [] {
        pulled := true;
        calls := calls[attempt := calls[attempt] + [outgoing[0]]];
        outgoing := outgoing[1..];
      }
    }

    method Answer()
      requires Valid()
      modifies this
      ensures Valid() && accepted == old(accepted) && calls == old(calls) && received && closed == old(closed)
    {
      received := true;
    }

    /** Another owner before any answer reopens the stream, once; otherwise the stream ends. */
    method Reopen() returns (again: bool)
      requires Valid()
      modifies this
      ensures Valid() && accepted == old(accepted) && outgoing == old(outgoing)
      ensures again == (!old(closed) && old(attempt) == 0 && !old(received))
      ensures closed == !again && calls == if again then old(calls) + [[]] else old(calls)
    {
      again := !closed && attempt == 0 && !received;
      if again {
        attempt, begun, received := 1, false, false;
        calls := calls + [[]];
      } else {
        closed := true;
      }
    }

    /** However the events fall, every frame accepted was pulled once, in order, or is still queued: nothing is lost
        to a reopening and nothing is sent on both calls. A stream still open has accepted all that was sent. */
    method Run(events: seq<Event>)
      requires Valid()
      modifies this
      ensures Valid() && accepted == Delivered(calls) + outgoing && old(accepted) <= accepted
      ensures !closed ==> accepted == old(accepted) + Sends(events, |events|)
    {
      for i := 0 to |events|
        invariant Valid() && old(accepted) <= accepted
        invariant !closed ==> accepted == old(accepted) + Sends(events, i)
      {
        match events[i] {
          case Send(frame) => var _ := Send(frame);
          case Pull => var _ := Pull();
          case Response => Answer();
          case OwnershipChanged => var _ := Reopen();
          case Fails => closed := true;
        }
      }
      DeliveredOnce(initial, calls, attempt);
    }
  }

  /** The frames of a stream's calls are those of its last one. */
  lemma DeliveredOnce(initial: Frame, calls: seq<seq<Frame>>, attempt: nat)
    requires attempt < 2 && |calls| == attempt + 1 && (attempt == 1 ==> calls[0] == [] || calls[0] == [initial])
    ensures Delivered(calls) == if calls[attempt] == [] then [] else calls[attempt][1..]
  {
    if attempt == 1 {
      assert calls[..1] == [calls[0]];
      assert Delivered([calls[0]]) == [];
    }
  }
}
