/**
 * The serial link as the drivers use it through `_send_command`: every call
 * writes one frame and hands back whatever bytes the device has answered with,
 * possibly none. The device is a scripted queue of replies; once the script is
 * exhausted every further reply is empty.
 */
module Transport {
  /** The reply the next send receives. */
  function NextReply(q: seq<seq<int>>): seq<int>
  {
    if q == [] then [] else q[0]
  }

  /** The replies left after one send. */
  function Rest(q: seq<seq<int>>): seq<seq<int>>
  {
    if q == [] then [] else q[1..]
  }

  /** The replies left after n sends. */
  function Drop(q: seq<seq<int>>, n: nat): (r: seq<seq<int>>)
    ensures |r| == if n >= |q| then 0 else |q| - n
  {
    if n >= |q| then [] else q[n..]
  }

  /** The reply that the k-th send (counting from 0) receives. */
  function Nth(q: seq<seq<int>>, k: nat): seq<int>
  {
    if k < |q| then q[k] else []
  }

  lemma DropStep(q: seq<seq<int>>, n: nat)
    ensures NextReply(Drop(q, n)) == Nth(q, n)
    ensures Rest(Drop(q, n)) == Drop(q, n + 1)
  {
  }

  lemma DropAdd(q: seq<seq<int>>, m: nat, n: nat)
    ensures Drop(Drop(q, m), n) == Drop(q, m + n)
  {
  }

  /** Frames sent in two batches are the log extended by both at once. */
  lemma SentTwice(log: seq<seq<int>>, a: seq<seq<int>>, b: seq<seq<int>>)
    ensures log + a + b == log + (a + b)
  {
  }

  lemma NthRest(q: seq<seq<int>>, k: nat)
    ensures Nth(Rest(q), k) == Nth(q, k + 1)
    ensures NextReply(q) == Nth(q, 0)
  {
  }

  class SerialLink {
    /** Every frame written so far, oldest first. */
    var sent: seq<seq<int>>
    /** The replies the device will give to the coming sends, in order. */
    var replies: seq<seq<int>>

    constructor (script: seq<seq<int>>)
      ensures sent == [] && replies == script
    {
      sent := [];
      replies := script;
    }

    /** Write one frame and read back the bytes available (maybe none). */
    method Send(frame: seq<int>) returns (reply: seq<int>)
      modifies this
      ensures sent == old(sent) + [frame]
      ensures reply == NextReply(old(replies)) && replies == Rest(old(replies))
    {
      sent := sent + [frame];
      reply := NextReply(replies);
      replies := Rest(replies);
    }
  }
}
